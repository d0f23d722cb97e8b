/**
 * The four telemetry URLs the gateway reads, built from the game server's
 * address and port as `f"http://{ip}:{port}/{path}"`, where `{port}` is
 * Python's `str` of an int.
 */
module UpstreamUrls {

  /** The paths of the four telemetry documents, relative to the server's root. */
  const IndicatorsPath: string := "indicators"
  const StatePath: string := "state"
  const MapInfoPath: string := "map_info.json"
  const MapObjPath: string := "map_obj.json"

  predicate IsDigit(c: char)
  {
    '0' <= c <= '9'
  }

  function DigitChar(d: nat): (c: char)
    requires d < 10
    ensures IsDigit(c)
    ensures c as int - '0' as int == d
  {
    ('0' as int + d) as char
  }

  /** The decimal digits of `n`, most significant first, with no leading zero. */
  function Digits(n: nat): (s: string)
    ensures |s| >= 1
    ensures forall i :: 0 <= i < |s| ==> IsDigit(s[i])
    ensures |s| > 1 ==> s[0] != '0'
  {
    if n < 10 then [DigitChar(n)] else Digits(n / 10) + [DigitChar(n % 10)]
  }

  /** The number a string of decimal digits denotes. */
  function DigitsValue(s: string): nat
    requires forall i :: 0 <= i < |s| ==> IsDigit(s[i])
  {
    if s == [] then 0
    else
      assert IsDigit(s[|s| - 1]);
      10 * DigitsValue(s[..|s| - 1]) + (s[|s| - 1] as int - '0' as int)
  }

  /** Reading the digits back gives the number: Digits loses nothing. */
  lemma {:induction false} DigitsRoundTrip(n: nat)
    ensures DigitsValue(Digits(n)) == n
  {
    if n >= 10 {
      DigitsRoundTrip(n / 10);
      var s := Digits(n);
      assert s[..|s| - 1] == Digits(n / 10);
    }
  }

  /** `str(n)` for an int: a minus sign before the digits of a negative number. */
  function DecimalString(n: int): (s: string)
    ensures |s| >= 1
    ensures n < 0 <==> s[0] == '-'
  {
    if n < 0 then "-" + Digits(-n) else Digits(n)
  }

  /** Different ports print differently. */
  lemma DecimalStringInjective(a: int, b: int)
    ensures DecimalString(a) == DecimalString(b) ==> a == b
  {
    if DecimalString(a) == DecimalString(b) {
      var m := if a < 0 then -a else a;
      var n := if b < 0 then -b else b;
      assert Digits(m) == Digits(n) by {
        if a < 0 {
          assert DecimalString(a)[1..] == Digits(m);
          assert DecimalString(b)[1..] == Digits(n);
        }
      }
      DigitsRoundTrip(m);
      DigitsRoundTrip(n);
    }
  }

  /** `f"http://{ip}:{port}/{path}"`. */
  function UpstreamUrl(ip: string, port: int, path: string): string
  {
    "http://" + ip + ":" + DecimalString(port) + "/" + path
  }

  /** For one server, the URL determines the path: the four documents have four different URLs. */
  lemma UrlDeterminesPath(ip: string, port: int, a: string, b: string)
    ensures UpstreamUrl(ip, port, a) == UpstreamUrl(ip, port, b) ==> a == b
  {
    var prefix := "http://" + ip + ":" + DecimalString(port) + "/";
    assert UpstreamUrl(ip, port, a) == prefix + a;
    assert UpstreamUrl(ip, port, b) == prefix + b;
    if UpstreamUrl(ip, port, a) == UpstreamUrl(ip, port, b) {
      assert a == (prefix + a)[|prefix|..] == (prefix + b)[|prefix|..] == b;
    }
  }

  /** The part of `a + b + c` between `a` and `c` is `b`. */
  lemma Middle(a: string, b: string, c: string)
    ensures (a + b + c)[|a|..|a| + |b|] == b
  {
    assert (a + b + c)[|a|..|a| + |b|] == (a + b)[|a|..];
  }

  /** For one address and path, the URL determines the port. */
  lemma UrlDeterminesPort(ip: string, p: int, q: int, path: string)
    ensures UpstreamUrl(ip, p, path) == UpstreamUrl(ip, q, path) ==> p == q
  {
    var head := "http://" + ip + ":";
    var tail := "/" + path;
    var dp := DecimalString(p);
    var dq := DecimalString(q);
    assert UpstreamUrl(ip, p, path) == head + dp + tail;
    assert UpstreamUrl(ip, q, path) == head + dq + tail;
    if head + dp + tail == head + dq + tail {
      assert |dp| == |dq|;
      Middle(head, dp, tail);
      Middle(head, dq, tail);
      DecimalStringInjective(p, q);
    }
  }

  lemma FourUrlsDistinct(ip: string, port: int)
    ensures |{UpstreamUrl(ip, port, IndicatorsPath), UpstreamUrl(ip, port, StatePath),
              UpstreamUrl(ip, port, MapInfoPath), UpstreamUrl(ip, port, MapObjPath)}| == 4
  {
    var paths := [IndicatorsPath, StatePath, MapInfoPath, MapObjPath];
    forall i, j | 0 <= i < j < 4
      ensures UpstreamUrl(ip, port, paths[i]) != UpstreamUrl(ip, port, paths[j])
    {
      UrlDeterminesPath(ip, port, paths[i], paths[j]);
      assert |paths[i]| != |paths[j]|;
    }
  }

  /** With the default address and port the state document is read from the game's usual local URL. */
  lemma DefaultStateUrl()
    ensures UpstreamUrl("localhost", 8111, StatePath) == "http://localhost:8111/state"
  {
  }
}
