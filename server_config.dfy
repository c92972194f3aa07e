/** internal/server/config: the listen address flag. Set accepts a value in
    the language of the anchored pattern `([0-9A-Za-z.]+)?(:[0-9]+)?` (an
    optional host, then an optional colon with at least one digit), after
    refusing the empty string; the pattern's end anchor is end of text. */
module ServerConfig {
  import opened Errors
  import opened Wrappers

  predicate IsDigit(c: char) {
    '0' <= c <= '9'
  }

  predicate IsHostChar(c: char) {
    IsDigit(c) || 'A' <= c <= 'Z' || 'a' <= c <= 'z' || c == '.'
  }

  predicate AllDigits(s: string) {
    forall i :: 0 <= i < |s| ==> IsDigit(s[i])
  }

  predicate AllHost(s: string) {
    forall i :: 0 <= i < |s| ==> IsHostChar(s[i])
  }

  /** The port group, present or absent. */
  predicate PortSuffix(s: string) {
    |s| == 0 || (s[0] == ':' && |s| > 1 && AllDigits(s[1..]))
  }

  /** The language of the pattern: some split into a host part and a port
      part. */
  ghost predicate InLanguage(s: string) {
    exists k :: 0 <= k <= |s| && AllHost(s[..k]) && PortSuffix(s[k..])
  }

  /** The matcher: one pass over the characters, host characters first; the
      first other character must be the colon of a non-empty digit run that
      ends the text. */
  predicate Matches(s: string) decreases |s| {
    if |s| == 0 then true
    else if IsHostChar(s[0]) then Matches(s[1..])
    else s[0] == ':' && |s| > 1 && AllDigits(s[1..])
  }

  /** The scan accepts exactly the pattern's language. */
  lemma {:induction false} MatchesLanguage(s: string)
    ensures Matches(s) <==> InLanguage(s)
    decreases |s|
  {
    if |s| == 0 {
      assert AllHost(s[..0]) && PortSuffix(s[0..]);
    } else if IsHostChar(s[0]) {
      MatchesLanguage(s[1..]);
      if InLanguage(s[1..]) {
        var k :| 0 <= k <= |s[1..]| && AllHost(s[1..][..k]) && PortSuffix(s[1..][k..]);
        assert s[..k + 1] == [s[0]] + s[1..][..k];
        assert s[k + 1..] == s[1..][k..];
        assert AllHost(s[..k + 1]) && PortSuffix(s[k + 1..]);
      }
      if InLanguage(s) {
        var k :| 0 <= k <= |s| && AllHost(s[..k]) && PortSuffix(s[k..]);
        // the port part starts with ':', which is not a host character
        assert s[0..] == s;
        assert k > 0;
        assert s[1..][..k - 1] == s[..k][1..];
        assert s[1..][k - 1..] == s[k..];
        assert AllHost(s[1..][..k - 1]) && PortSuffix(s[1..][k - 1..]);
      }
    } else {
      // no non-empty host part can start with s[0]
      forall k | 0 < k <= |s| ensures !AllHost(s[..k]) {
        assert s[..k][0] == s[0];
      }
      assert s[0..] == s;
      if Matches(s) {
        assert AllHost(s[..0]);
      }
    }
  }

  /** ServerAddress. */
  class ServerAddress {
    var value: string

    /** The default, ":8080". */
    constructor ()
      ensures value == ":8080"
    {
      value := ":8080";
    }

    /** String. */
    function String(): (s: string)
      reads this
      ensures s == value
    {
      value
    }

    /** Set: the empty string, then anything outside the language, is
        refused and leaves the address as it was; any other value becomes
        the address. */
    method Set(flagValue: string) returns (err: Option<Error>)
      modifies this
      ensures |flagValue| == 0 ==> err == Some(EmptyAddress) && value == old(value)
      ensures |flagValue| > 0 && !InLanguage(flagValue) ==> err == Some(InvalidAddress) && value == old(value)
      ensures |flagValue| > 0 && InLanguage(flagValue) ==> err == None && value == flagValue
    {
      if |flagValue| == 0 {
        return Some(EmptyAddress);
      }
      MatchesLanguage(flagValue);
      if !Matches(flagValue) {
        return Some(InvalidAddress);
      }
      value := flagValue;
      return None;
    }
  }

  /** The default address is in the language. */
  lemma DefaultIsValid()
    ensures InLanguage(":8080")
  {
    MatchesLanguage(":8080");
  }

  /** A host with a port is in the language. */
  lemma HostAndPortIsValid()
    ensures InLanguage("localhost:8080")
  {
    var s := "localhost:8080";
    assert s[..9] == "localhost" && s[9..] == ":8080";
    assert ":8080"[1..] == "8080";
    assert AllHost(s[..9]) && PortSuffix(s[9..]);
  }

  /** A colon needs at least one digit after it. */
  lemma EmptyPortIsInvalid()
    ensures !InLanguage(":")
    ensures !InLanguage("host:")
  {
    MatchesLanguage(":");
    MatchesLanguage("host:");
  }
}
