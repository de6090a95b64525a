/** Failure-carrying wrappers and the small string vocabulary the services share. */
module Common {

  /** A value that may be absent: a missing dictionary key, a file that does not exist. */
  datatype Option<T> = None | Some(value: T) {
    function GetOr(default: T): T {
      match this
      case Some(v) => v
      case None => default
    }
  }

  /** The outcome of an operation that raises on failure in the service code. */
  datatype Result<T, E> = Ok(value: T) | Err(error: E)

  /** Success or a failure value, for operations that return nothing. */
  datatype Outcome<E> = Pass | Fail(error: E)

  /** The language-model provider either answers or raises; it never answers with empty text. */
  datatype ProviderError = ProviderError(status: int, detail: string)

  /** `generate_response`, an oracle: system prompt and user prompt to the model's answer, or the error it raises. */
  type LanguageModel = (string, string) -> Result<string, ProviderError>

  function Min(a: int, b: int): int {
    if a <= b then a else b
  }

  predicate StartsWith(s: string, prefix: string) {
    |prefix| <= |s| && s[..|prefix|] == prefix
  }

  predicate EndsWith(s: string, suffix: string) {
    |suffix| <= |s| && s[|s| - |suffix|..] == suffix
  }

  /** `sub` occurs in `s` starting at position `i`. */
  predicate OccursAt(s: string, sub: string, i: int) {
    0 <= i <= |s| - |sub| && s[i..i + |sub|] == sub
  }

  /** Python's `sub in s` on strings. */
  predicate Contains(s: string, sub: string) {
    exists i :: 0 <= i <= |s| - |sub| && OccursAt(s, sub, i)
  }

  /** Concatenation of a list of sequences (of strings, of edge lists), as repeated `+=` builds it. */
  function Concat<T>(parts: seq<seq<T>>): seq<T> {
    if parts == [] then [] else Concat(parts[..|parts| - 1]) + parts[|parts| - 1]
  }

  function DigitChar(d: nat): char
    requires d < 10
  {
    "0123456789"[d]
  }

  /** Python's `str(n)` for a non-negative integer: decimal, no leading zeros. */
  function NatToString(n: nat): (s: string)
    ensures |s| >= 1
    ensures forall i :: 0 <= i < |s| ==> '0' <= s[i] <= '9'
    ensures n >= 10 ==> s[0] != '0'
  {
    if n < 10 then [DigitChar(n)] else NatToString(n / 10) + [DigitChar(n % 10)]
  }

  /** Python's `str(n)` for any integer. */
  function IntToString(n: int): string {
    if n < 0 then "-" + NatToString(-n) else NatToString(n)
  }

  /** The value of a string of decimal digits (the reading of NatToString). */
  function DecimalValue(s: string): nat
    requires forall i :: 0 <= i < |s| ==> '0' <= s[i] <= '9'
  {
    if s == [] then 0 else 10 * DecimalValue(s[..|s| - 1]) + (s[|s| - 1] as int - '0' as int)
  }

  /** The number rendered into a prompt can be read back: NatToString loses nothing. */
  lemma {:induction false} NatToStringRoundTrip(n: nat)
    ensures DecimalValue(NatToString(n)) == n
  {
    var s := NatToString(n);
    if n >= 10 {
      NatToStringRoundTrip(n / 10);
      assert s[..|s| - 1] == NatToString(n / 10);
    }
  }

  /** An occurrence in either half of a concatenation is an occurrence in the whole. */
  lemma OccursInAppend(a: string, b: string, sub: string, k: int)
    ensures OccursAt(a, sub, k) ==> OccursAt(a + b, sub, k)
    ensures OccursAt(b, sub, k) ==> OccursAt(a + b, sub, |a| + k)
  {
    if OccursAt(a, sub, k) {
      assert (a + b)[k..k + |sub|] == a[k..k + |sub|];
    }
    if OccursAt(b, sub, k) {
      assert (a + b)[|a| + k..|a| + k + |sub|] == b[k..k + |sub|];
    }
  }

  lemma AppendAssoc<T>(a: seq<T>, b: seq<T>, c: seq<T>)
    ensures (a + b) + c == a + (b + c)
  {
  }

  lemma {:induction false} ConcatAppend<T>(a: seq<seq<T>>, b: seq<seq<T>>)
    ensures Concat(a + b) == Concat(a) + Concat(b)
    decreases |b|
  {
    if b == [] {
      assert a + b == a;
    } else {
      var b' := b[..|b| - 1];
      var last := b[|b| - 1];
      assert (a + b)[..|a + b| - 1] == a + b';
      assert Concat(a + b) == Concat(a + b') + last;
      ConcatAppend(a, b');
      AppendAssoc(Concat(a), Concat(b'), last);
    }
  }
}
