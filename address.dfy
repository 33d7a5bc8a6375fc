/** `parse_address`: splits a `host[:port]` string and reads the port as a number. */
module Address {
  import opened Values

  /** A parsed address; `port` is None when the text has no ':'. */
  datatype HostPort = HostPort(host: string, port: Option<nat>)

  /** The port text after ':' is not a number (Python's ValueError). */
  datatype AddressError = InvalidPort

  predicate IsDigit(c: char) {
    '0' <= c <= '9'
  }

  /** A non-empty run of decimal digits. */
  predicate IsDigits(d: string) {
    |d| >= 1 && forall i :: 0 <= i < |d| ==> IsDigit(d[i])
  }

  /** The number a digit string spells, most significant digit first. */
  function DigitsValue(d: string): nat
    requires forall i :: 0 <= i < |d| ==> IsDigit(d[i])
  {
    if d == [] then 0
    else
      assert IsDigit(d[|d| - 1]);
      10 * DigitsValue(d[..|d| - 1]) + (d[|d| - 1] as int - '0' as int)
  }

  /** The decimal spelling of `n`, without leading zeros. */
  function ShowNat(n: nat): string {
    if n < 10 then [('0' as int + n) as char]
    else ShowNat(n / 10) + [('0' as int + n % 10) as char]
  }

  /** Reading back the decimal spelling of a number gives the number. */
  lemma {:induction false} DigitsValueShowNat(n: nat)
    ensures IsDigits(ShowNat(n)) && DigitsValue(ShowNat(n)) == n
  {
    if n >= 10 {
      DigitsValueShowNat(n / 10);
      var d := ShowNat(n);
      assert d[..|d| - 1] == ShowNat(n / 10);
    }
  }

  /** The position of the first ':' in `s`. */
  function FirstColon(s: string): (i: nat)
    requires ':' in s
    ensures i < |s| && s[i] == ':' && ':' !in s[..i]
  {
    if s[0] == ':' then 0
    else
      var j := FirstColon(s[1..]);
      assert s[..j + 1] == [s[0]] + s[1..][..j];
      j + 1
  }

  /** `parse_address(s)`: text without ':' is a host with no port; otherwise the
      text before the first ':' is the host and the text after it must be a decimal
      number, the port. */
  function ParseAddress(s: string): (r: Result<HostPort, AddressError>)
    ensures r.Ok? ==> ':' !in r.value.host
    ensures r.Ok? && r.value.port.None? ==> s == r.value.host
    ensures r.Ok? && r.value.port.Some? ==>
      |r.value.host| < |s| && s[..|r.value.host|] == r.value.host && s[|r.value.host|] == ':' &&
      IsDigits(s[|r.value.host| + 1..]) && DigitsValue(s[|r.value.host| + 1..]) == r.value.port.value
    ensures r.Err? <==> ':' in s && !IsDigits(s[FirstColon(s) + 1..])
  {
    if ':' !in s then Ok(HostPort(s, None))
    else
      var i := FirstColon(s);
      var digits := s[i + 1..];
      if IsDigits(digits) then Ok(HostPort(s[..i], Some(DigitsValue(digits))))
      else Err(InvalidPort)
  }

  /** Any run of digits after the first ':' is read as the port, leading zeros
      included. */
  lemma ParseDigitPort(host: string, d: string)
    requires ':' !in host && IsDigits(d)
    ensures ParseAddress(host + ":" + d) == Ok(HostPort(host, Some(DigitsValue(d))))
  {
    var s := host + ":" + d;
    assert s[|host|] == ':';
    assert s[..|host|] == host;
    assert FirstColon(s) == |host|;
    assert s[|host| + 1..] == d;
  }

  /** An address written as `host:port` parses back to that host and port. */
  lemma ParseShownAddress(host: string, port: nat)
    requires ':' !in host
    ensures ParseAddress(host + ":" + ShowNat(port)) == Ok(HostPort(host, Some(port)))
  {
    DigitsValueShowNat(port);
    ParseDigitPort(host, ShowNat(port));
  }

  /** A bare host parses to itself with no port. */
  lemma ParseBareHost(host: string)
    requires ':' !in host
    ensures ParseAddress(host) == Ok(HostPort(host, None))
  {
  }

  /** A port that is not a decimal number is rejected. */
  lemma ParseBadPort(host: string, port: string)
    requires ':' !in host && !IsDigits(port)
    ensures ParseAddress(host + ":" + port) == Err(InvalidPort)
  {
    var s := host + ":" + port;
    assert s[|host|] == ':';
    assert s[..|host|] == host;
    assert FirstColon(s) == |host|;
    assert s[|host| + 1..] == port;
  }
}
