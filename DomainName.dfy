/**
 * Extraction of the tenant's domain name from the host name the caller types
 * in: the second `.`-separated segment ("www.domain1.com" gives "domain1"),
 * or the whole input when that segment is missing or empty.
 */
module DomainName {
  import opened Text

  /** `domain.split(".")[1] || domain`. */
  function ExtractDomainName(domain: string): (name: string)
    ensures name == domain || ('.' !in name && name != "")
  {
    var segments := Split(domain, '.');
    if |segments| >= 2 && segments[1] != "" then segments[1] else domain
  }

  /** For a host name built from dot-free segments, the result is its second segment if non-empty. */
  lemma DomainNameOfSegments(segments: seq<string>)
    requires |segments| >= 1
    requires forall i :: 0 <= i < |segments| ==> '.' !in segments[i]
    ensures ExtractDomainName(Join(segments, ".")) ==
              if |segments| >= 2 && segments[1] != "" then segments[1] else Join(segments, ".")
  {
    SplitJoin(segments, '.');
  }

  /** A name without any dot is kept whole. */
  lemma DomainNameWithoutDot(domain: string)
    requires '.' !in domain
    ensures ExtractDomainName(domain) == domain
  {
    SplitWithoutSeparator(domain, '.');
  }

  /** The documented example: "www.domain1.com" yields "domain1". */
  lemma DomainNameExample()
    ensures ExtractDomainName("www.domain1.com") == "domain1"
  {
    var segments := ["www", "domain1", "com"];
    assert Join(segments[2..], ".") == "com";
    assert Join(segments[1..], ".") == "domain1" + "." + "com";
    assert Join(segments, ".") == "www.domain1.com";
    DomainNameOfSegments(segments);
  }
}
