/** Vocabulary shared by the authenticator, the poller and the setup flow:
    optional values, results carrying a Python exception, the integration's
    constants, substring search and decimal rendering. */
module Common {

  datatype Option<+T> = None | Some(value: T) {
    function GetOr(default: T): T {
      match this
      case Some(v) => v
      case None => default
    }
  }

  /** Python exception classes the integration tells apart. */
  datatype ExceptionKind =
    | ValueError      // raised by the integration itself, or a foreign ValueError
    | ClientError     // aiohttp transport failure
    | TypeError       // `in` or `[...]` on a JSON value of the wrong shape
    | AttributeError  // `.items()`, `.keys()` or `.get()` on a JSON value that is not an object
    | OtherError      // anything else a foreign call may raise

  /** A raised exception; `message` is what `str(err)` gives. */
  datatype Exception = Exception(kind: ExceptionKind, message: string)

  /** The value of a call that either returns or raises. */
  datatype Result<+T> = Ok(value: T) | Err(error: Exception)

  // const.py
  const DEFAULT_SCAN_INTERVAL: int := 30
  const MIN_SCAN_INTERVAL: int := 10
  const MAX_SCAN_INTERVAL: int := 3600

  /** The fallback display name `f"MWAN3 {host}"`. */
  function DefaultName(host: string): string {
    "MWAN3 " + host
  }

  /** The configuration entry data: the submitted user input. */
  datatype EntryData = EntryData(
    host: string,
    username: string,
    password: string,
    name: Option<string>,
    scanInterval: Option<int>)

  /** Python's `sub in s` on strings. */
  predicate Contains(s: string, sub: string)
    decreases |s|
  {
    sub <= s || (s != [] && Contains(s[1..], sub))
  }

  /** `sub` occurs in `s` starting at position `i`. */
  predicate OccursAt(s: string, sub: string, i: nat) {
    i + |sub| <= |s| && s[i..i + |sub|] == sub
  }

  /** An occurrence of `sub` at any position makes `sub in s` true. */
  lemma {:induction false} ContainsAt(s: string, sub: string, i: nat)
    requires OccursAt(s, sub, i)
    ensures Contains(s, sub)
  {
    if i == 0 {
      assert sub <= s;
    } else {
      assert s[1..][i - 1..i - 1 + |sub|] == s[i..i + |sub|];
      ContainsAt(s[1..], sub, i - 1);
    }
  }

  /** `sub in s` holds only when `sub` occurs at some position. */
  lemma {:induction false} ContainsOccurs(s: string, sub: string)
    requires Contains(s, sub)
    ensures exists i: nat :: OccursAt(s, sub, i)
    decreases |s|
  {
    if sub <= s {
      assert OccursAt(s, sub, 0);
    } else {
      ContainsOccurs(s[1..], sub);
      var i: nat :| OccursAt(s[1..], sub, i);
      assert s[1..][i..i + |sub|] == s[i + 1..i + 1 + |sub|];
      assert OccursAt(s, sub, i + 1);
    }
  }

  /** The number a string of decimal digits denotes. */
  function DigitsValue(s: string): int {
    if s == [] then 0
    else DigitsValue(s[..|s| - 1]) * 10 + (s[|s| - 1] as int - '0' as int)
  }

  /** Decimal digits of `n`, as `str(n)` renders a non-negative int: they
      denote `n`, and there is no leading zero. */
  function DecimalString(n: nat): (r: string)
    ensures r != []
    ensures forall k :: 0 <= k < |r| ==> '0' <= r[k] <= '9'
    ensures DigitsValue(r) == n
    ensures r[0] != '0' || n == 0
    ensures n < 10 <==> |r| == 1
  {
    var digit := [('0' as int + n % 10) as char];
    if n < 10 then digit
    else
      var prefix := DecimalString(n / 10);
      assert (prefix + digit)[..|prefix + digit| - 1] == prefix;
      prefix + digit
  }
}
