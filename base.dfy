/**
 * Small shared vocabulary: optional values, results, the CLI's error kinds,
 * and the JavaScript truthiness rules the command layer relies on.
 */
module Base {

  /** A value that may be missing (`undefined` in the source). */
  datatype Option<+T> = None | Some(value: T)

  /** The outcome of an operation that may fail before any request is made. */
  datatype Result<+T, +E> = Ok(value: T) | Err(error: E)

  /** The error kinds a command can stop with before it reaches the network. */
  datatype CliError =
    | ConfigurationError(message: string)   // missing local settings or credentials
    | InputError(message: string)           // a user-supplied file that cannot be read or parsed

  function Lookup<K, V>(m: map<K, V>, k: K): Option<V>
  {
    if k in m then Some(m[k]) else None
  }

  function Min(a: int, b: int): int
  {
    if a <= b then a else b
  }

  /** JavaScript truthiness of a string-or-undefined: `undefined` and `''` are falsy. */
  predicate Truthy(o: Option<string>)
  {
    o.Some? && o.value != ""
  }

  /** JavaScript `a || b` on strings-or-undefined: `a` when truthy, `b` otherwise (whatever `b` is). */
  function Or(a: Option<string>, b: Option<string>): Option<string>
  {
    if Truthy(a) then a else b
  }

  /**
   * The value a command action sees for an option declared with a default:
   * the default only when the flag was not given at all (an empty flag stays empty).
   */
  function OrDefault(o: Option<string>, default: string): string
  {
    if o.Some? then o.value else default
  }

  /**
   * JavaScript `s.substring(0, n)` for `n >= 0`: the first `n` characters,
   * or the whole string when it is shorter.
   */
  function Prefix(s: string, n: nat): (p: string)
    ensures |p| == Min(n, |s|)
    ensures p <= s
    ensures |s| <= n ==> p == s
  {
    if |s| <= n then s else s[..n]
  }

  /**
   * JavaScript's `s.length`: the number of UTF-16 code units, one for a
   * character of the Basic Multilingual Plane and two (a surrogate pair) for
   * any other character.
   */
  function Utf16Length(s: string): (n: nat)
    ensures |s| <= n <= 2 * |s|
  {
    if s == [] then 0 else (if s[0] as int > 0xFFFF then 2 else 1) + Utf16Length(s[1..])
  }

  /** Every character lies in the Basic Multilingual Plane (one UTF-16 code unit each). */
  predicate InBmp(s: string)
  {
    forall i :: 0 <= i < |s| ==> s[i] as int <= 0xFFFF
  }

  lemma {:induction false} BmpUtf16Length(s: string)
    requires InBmp(s)
    ensures Utf16Length(s) == |s|
  {
    if s != [] {
      assert InBmp(s[1..]) by {
        forall i | 0 <= i < |s[1..]| ensures s[1..][i] as int <= 0xFFFF {
          assert s[1..][i] == s[i + 1];
        }
      }
      BmpUtf16Length(s[1..]);
    }
  }

  lemma {:induction false} Utf16LengthAppend(a: string, b: string)
    ensures Utf16Length(a + b) == Utf16Length(a) + Utf16Length(b)
  {
    if a == [] {
      assert a + b == b;
    } else {
      assert (a + b)[0] == a[0];
      assert (a + b)[1..] == a[1..] + b;
      Utf16LengthAppend(a[1..], b);
    }
  }
}
