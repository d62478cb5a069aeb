/**
  The URL pieces the serializers rely on: the literal "http" prefix test and
  the request object whose absolute-URI builder resolves a relative URL.
 */
module Urls {

  /** An incoming HTTP request. Only its absolute-URI builder is used by the
      serializers; the builder belongs to the web framework and is left
      uninterpreted. */
  datatype Request = Request(buildAbsoluteUri: string -> string)

  /** Python's `s.startswith(prefix)`. */
  predicate StartsWith(s: string, prefix: string)
  {
    prefix <= s
  }

  /** The test `url.startswith("http")`: a plain prefix test, not a scheme parser. */
  predicate StartsWithHttp(url: string)
  {
    StartsWith(url, "http")
  }

  /** The prefix test looks at exactly the first four characters, case-sensitively. */
  lemma StartsWithHttpChars(url: string)
    ensures StartsWithHttp(url) <==>
      |url| >= 4 && url[0] == 'h' && url[1] == 't' && url[2] == 't' && url[3] == 'p'
  {
    if |url| >= 4 && url[0] == 'h' && url[1] == 't' && url[2] == 't' && url[3] == 'p' {
      assert url[..4] == "http";
    }
  }

  /** Consequences of the literal prefix test: both remote schemes pass, an
      upper-case scheme and a media path do not, and a relative name that merely
      begins with the four letters passes too. */
  lemma LiteralPrefixExamples()
    ensures StartsWithHttp("https://res.cloudinary.com/a.jpg")
    ensures StartsWithHttp("http://localhost/media/a.jpg")
    ensures !StartsWithHttp("HTTPS://res.cloudinary.com/a.jpg")
    ensures !StartsWithHttp("/media/products/a.jpg")
    ensures StartsWithHttp("httpd.png")
    ensures !StartsWithHttp("htt")
  {
    StartsWithHttpChars("https://res.cloudinary.com/a.jpg");
    StartsWithHttpChars("http://localhost/media/a.jpg");
    StartsWithHttpChars("HTTPS://res.cloudinary.com/a.jpg");
    StartsWithHttpChars("/media/products/a.jpg");
    StartsWithHttpChars("httpd.png");
    StartsWithHttpChars("htt");
  }
}
