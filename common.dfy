/** Shared vocabulary: optional values, results carrying the Python exception a
    call would raise, and the few Python string operations the system relies on
    (`in` on strings, `endswith`, `lower`, `replace(c, "")`, `join`). */
module Common {

  datatype Option<+T> = None | Some(value: T)

  /** The exception a Python call raises, with the text `str(e)` would give. */
  datatype Error =
    | ValueError(message: string)
    | IndexError(message: string)
    | KeyError(message: string)
    | AttributeError(message: string)
    | ZeroDivisionError(message: string)
    | EngineError(message: string)    // raised by the remote engine or a library it wraps
    | AuthError(message: string)      // EEAuthenticationError

  datatype Result<+T> = Ok(value: T) | Err(error: Error)

  /** `str(e)` */
  function Message(e: Error): string {
    e.message
  }

  /** Python's message for `xs[0]` on an empty list. */
  const ListIndexOutOfRange: string := "list index out of range"

  predicate Distinct<T(==)>(s: seq<T>) {
    forall i, j :: 0 <= i < j < |s| ==> s[i] != s[j]
  }

  predicate StartsWith(s: string, prefix: string) {
    |prefix| <= |s| && s[..|prefix|] == prefix
  }

  /** `s.endswith(suffix)` */
  predicate EndsWith(s: string, suffix: string) {
    |suffix| <= |s| && s[|s| - |suffix|..] == suffix
  }

  /** `sub in s` for strings */
  predicate Contains(s: string, sub: string)
    decreases |s|
  {
    StartsWith(s, sub) || (|s| > 0 && Contains(s[1..], sub))
  }

  /** `c.lower()` on the ASCII letters */
  function LowerChar(c: char): char {
    if 'A' <= c <= 'Z' then (c as int + 32) as char else c
  }

  /** `s.lower()` (ASCII letters only) */
  function Lower(s: string): (r: string)
    ensures |r| == |s|
    ensures forall i :: 0 <= i < |s| ==> r[i] == LowerChar(s[i])
  {
    if s == [] then [] else [LowerChar(s[0])] + Lower(s[1..])
  }

  /** `s.replace(c, "")`: every occurrence of `c` removed, the rest kept in order. */
  function RemoveChar(s: string, c: char): (r: string)
    ensures c !in r
    ensures |r| <= |s|
    ensures forall x :: x in r ==> x in s
  {
    if s == [] then []
    else if s[0] == c then RemoveChar(s[1..], c)
    else [s[0]] + RemoveChar(s[1..], c)
  }

  /** `sep.join(items)` */
  function Join(sep: string, items: seq<string>): string {
    if items == [] then ""
    else if |items| == 1 then items[0]
    else items[0] + sep + Join(sep, items[1..])
  }

  /** `xs[:n]` for a Python integer `n`, negative values counting from the end. */
  function SliceTo<T>(xs: seq<T>, n: int): (r: seq<T>)
    ensures |r| <= |xs| && r == xs[..|r|]
    ensures 0 <= n ==> |r| == if n < |xs| then n else |xs|
    ensures multiset(r) <= multiset(xs)
  {
    if n >= |xs| then xs
    else if n >= 0 then
      assert xs == xs[..n] + xs[n..];
      xs[..n]
    else if |xs| + n >= 0 then
      assert xs == xs[..|xs| + n] + xs[|xs| + n..];
      xs[..|xs| + n]
    else []
  }

  /** A dictionary filled in a loop over `keys`, `d[k] = build(k)`, where the first
      exception ends the loop and propagates: the state after the first `n` keys. */
  function Collect<K, V>(keys: seq<K>, build: K -> Result<V>, n: nat): Result<map<K, V>>
    requires n <= |keys|
  {
    if n == 0 then Ok(map[])
    else
      var prev := Collect(keys, build, n - 1);
      if prev.Err? then prev
      else
        var v := build(keys[n - 1]);
        if v.Err? then Err(v.error)
        else Ok(prev.value[keys[n - 1] := v.value])
  }

  /** The loop completes exactly when every key builds. */
  lemma {:induction false} CollectOk<K, V>(keys: seq<K>, build: K -> Result<V>, n: nat)
    requires n <= |keys|
    ensures Collect(keys, build, n).Ok? <==> forall i :: 0 <= i < n ==> build(keys[i]).Ok?
  {
    if n > 0 {
      CollectOk(keys, build, n - 1);
    }
  }

  /** Once a key fails, later keys change nothing. */
  lemma {:induction false} CollectErrorSticks<K, V>(keys: seq<K>, build: K -> Result<V>, i: nat, n: nat)
    requires i <= n <= |keys|
    requires Collect(keys, build, i).Err?
    ensures Collect(keys, build, n) == Collect(keys, build, i)
    decreases n - i
  {
    if i < n {
      CollectErrorSticks(keys, build, i, n - 1);
    }
  }

  /** One more key: a failure decides the whole fold, a value is stored under the key. */
  lemma {:induction false} CollectStep<K, V>(keys: seq<K>, build: K -> Result<V>, i: nat, acc: map<K, V>)
    requires i < |keys| && Collect(keys, build, i) == Ok(acc)
    ensures build(keys[i]).Err? ==> Collect(keys, build, |keys|) == Err(build(keys[i]).error)
    ensures build(keys[i]).Ok? ==> Collect(keys, build, i + 1) == Ok(acc[keys[i] := build(keys[i]).value])
  {
    if build(keys[i]).Err? {
      CollectErrorSticks(keys, build, i + 1, |keys|);
    }
  }

  /** The first key that fails decides the exception. */
  lemma {:induction false} CollectFirstError<K, V>(keys: seq<K>, build: K -> Result<V>, n: nat, j: nat)
    requires j < n <= |keys|
    requires build(keys[j]).Err?
    requires forall i :: 0 <= i < j ==> build(keys[i]).Ok?
    ensures Collect(keys, build, n) == Err(build(keys[j]).error)
  {
    CollectOk(keys, build, j);
    CollectErrorSticks(keys, build, j + 1, n);
  }

  /** On success there is one entry per distinct key, holding what the key builds. */
  lemma {:induction false} CollectEntries<K, V>(keys: seq<K>, build: K -> Result<V>, n: nat)
    requires n <= |keys|
    requires Collect(keys, build, n).Ok?
    ensures forall k :: k in Collect(keys, build, n).value <==> k in keys[..n]
    ensures forall k :: k in Collect(keys, build, n).value ==> build(k) == Ok(Collect(keys, build, n).value[k])
  {
    if n > 0 {
      CollectEntries(keys, build, n - 1);
      assert keys[..n] == keys[..n - 1] + [keys[n - 1]];
    }
  }

  function DigitChar(d: nat): char
    requires d < 10
  {
    "0123456789"[d]
  }

  /** `str(n)` for a natural number: its decimal digits, most significant first. */
  function NatRepr(n: nat): string
    decreases n
  {
    if n < 10 then [DigitChar(n)] else NatRepr(n / 10) + [DigitChar(n % 10)]
  }

  /** `str(i)` for an integer. */
  function IntRepr(i: int): string {
    if i < 0 then "-" + NatRepr(-i) else NatRepr(i)
  }
}
