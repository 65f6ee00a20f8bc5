/**
  The command-line options the core reads, the `--url` prefix check of
  `main`, the API base URI built by `Graylog2Check.__init__` and the request
  URIs of `get_api_data`.
 */
module Uris {
  import opened Wrappers
  import opened Decimal

  /**
    The parsed options. `port` is already `int(args.port)`; `url` is `None`
    when `--url` was not given.
   */
  datatype Args = Args(
    username: string,
    password: string,
    host: string,
    port: int,
    ssl: bool,
    url: Option<string>)

  const NeedsLeadingSlash := "URL part needs to start with /"
  const NoTrailingSlash := "URL part should not end with /"

  /**
    The prefix check of `main`: a given prefix must start with "/" (checked
    first) and must not end with "/". `Failure` is the RuntimeError raised.
   */
  function ValidateUrlPrefix(url: Option<string>): (r: Result<(), string>)
    ensures url.None? ==> r.Success?
    ensures url.Some? && (|url.value| == 0 || url.value[0] != '/') ==> r == Failure(NeedsLeadingSlash)
    ensures url.Some? && |url.value| > 0 && url.value[0] == '/' && url.value[|url.value| - 1] == '/' ==>
      r == Failure(NoTrailingSlash)
  {
    match url
    case None => Success(())
    case Some(prefix) =>
      if !(|prefix| > 0 && prefix[0] == '/') then Failure(NeedsLeadingSlash)
      else if prefix[|prefix| - 1] == '/' then Failure(NoTrailingSlash)
      else Success(())
  }

  /** A prefix is accepted exactly when it starts with "/" and ends with something else. */
  lemma ValidPrefixIff(url: Option<string>)
    ensures ValidateUrlPrefix(url).Success? <==>
      url.None? || (|url.value| >= 2 && url.value[0] == '/' && url.value[|url.value| - 1] != '/')
  {
  }

  /** Neither "/" alone nor the empty prefix is accepted; "/api" is. */
  lemma RootAndEmptyPrefixRejected()
    ensures ValidateUrlPrefix(Some("/")) == Failure(NoTrailingSlash)
    ensures ValidateUrlPrefix(Some("")) == Failure(NeedsLeadingSlash)
    ensures ValidateUrlPrefix(Some("/api")) == Success(())
  {
  }

  function Scheme(ssl: bool): string {
    if ssl then "https" else "http"
  }

  /**
    `proto://host:port`, followed by the prefix only when one was given: the
    text between `host:` and the prefix is the port in decimal.
   */
  function BaseUri(args: Args): (uri: string)
    ensures var head := Scheme(args.ssl) + "://" + args.host + ":";
      var tail := if args.url.Some? then args.url.value else "";
      && |uri| > |head| + |tail|
      && uri[..|head|] == head
      && uri[|uri| - |tail|..] == tail
      && ParseInt(uri[|head|..|uri| - |tail|]) == Some(args.port)
  {
    var head := Scheme(args.ssl) + "://" + args.host + ":";
    var port := IntToString(args.port);
    var tail := if args.url.Some? then args.url.value else "";
    ParseIntToString(args.port);
    var uri := head + port + tail;
    assert uri[|head|..|uri| - |tail|] == port;
    uri
  }

  /** The base URI is an https URI exactly when ssl is set, and an http one otherwise. */
  lemma BaseUriScheme(args: Args)
    ensures |BaseUri(args)| > 8
    ensures BaseUri(args)[..8] == "https://" <==> args.ssl
    ensures BaseUri(args)[..7] == "http://" <==> !args.ssl
  {
    var u := BaseUri(args);
    if args.ssl {
      assert u[..8] == "https://";
      assert u[4] == 's';
    } else {
      assert u[..7] == "http://";
      assert u[4] == ':';
    }
  }

  /** Giving a prefix appends exactly that prefix to the prefix-less base URI. */
  lemma BaseUriPrefix(args: Args, prefix: string)
    ensures BaseUri(args.(url := Some(prefix))) == BaseUri(args.(url := None)) + prefix
    ensures BaseUri(args.(url := None)) == Scheme(args.ssl) + "://" + args.host + ":" + IntToString(args.port)
  {
  }

  /**
    With a prefix that passes `main`'s check the base URI never ends in "/"
    (a prefix ends otherwise, and without one it ends in a port digit), so a
    suffix starting with "/" is joined with exactly one slash.
   */
  lemma ValidBaseUriJoinsWithOneSlash(args: Args, suffix: string)
    requires ValidateUrlPrefix(args.url).Success?
    requires |suffix| > 0 && suffix[0] == '/'
    ensures var base := BaseUri(args);
      |base| > 0 && base[|base| - 1] != '/' && RequestUri(base, suffix)[|base|] == '/'
  {
    var port := IntToString(args.port);
    var authority := Scheme(args.ssl) + "://" + args.host + ":" + port;
    assert authority[|authority| - 1] == port[|port| - 1];
  }

  /** `get_api_data`'s URI: the base and the suffix side by side, nothing normalised. */
  function RequestUri(base: string, suffix: string): (uri: string)
    ensures |uri| == |base| + |suffix|
    ensures uri[..|base|] == base && uri[|base|..] == suffix
  {
    base + suffix
  }

  /** Different suffixes give different request URIs on the same base. */
  lemma RequestUriInjective(base: string, s1: string, s2: string)
    requires RequestUri(base, s1) == RequestUri(base, s2)
    ensures s1 == s2
  {
    assert s1 == RequestUri(base, s1)[|base|..];
  }
}
