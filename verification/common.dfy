/** Helpers shared by the scanner, the domain verifier and the scan route:
    an Option type, the JavaScript string operations the program relies on
    (`toLowerCase`, `includes`, `startsWith`, `endsWith`, `trim`,
    `split('\n')`, `join`, `substring`), and a sum over the values of a map
    used to state the tally invariants.

    Strings are `seq<char>`; case folding and white space are ASCII-only. */
module Common {

  datatype Option<+T> = None | Some(value: T)

  function Min(a: nat, b: nat): nat {
    if a <= b then a else b
  }

  // ------------------------------------------------------------ characters

  predicate IsUpper(c: char) {
    'A' <= c <= 'Z'
  }

  function LowerChar(c: char): (r: char)
    ensures !IsUpper(r)
  {
    if IsUpper(c) then (c as int + 32) as char else c
  }

  predicate IsDigit(c: char) {
    '0' <= c <= '9'
  }

  /** The characters that `\s` and `trim` treat as white space, restricted to ASCII. */
  predicate IsSpace(c: char) {
    c == ' ' || c == '\t' || c == '\n' || c == '\r' || c == 11 as char || c == 12 as char
  }

  predicate IsQuote(c: char) {
    c == '"' || c == '\''
  }

  // ------------------------------------------------------------ lower case

  /** `s.toLowerCase()` on ASCII letters. */
  function Lower(s: string): (r: string)
    ensures |r| == |s|
    ensures forall i :: 0 <= i < |s| ==> r[i] == LowerChar(s[i])
    decreases |s|
  {
    if |s| == 0 then "" else [LowerChar(s[0])] + Lower(s[1..])
  }

  predicate IsLowerCase(s: string) {
    forall i :: 0 <= i < |s| ==> !IsUpper(s[i])
  }

  lemma LowerIsLowerCase(s: string)
    ensures IsLowerCase(Lower(s))
  {
  }

  lemma LowerOfLowerCase(s: string)
    requires IsLowerCase(s)
    ensures Lower(s) == s
  {
  }

  lemma LowerConcat(a: string, b: string)
    ensures Lower(a + b) == Lower(a) + Lower(b)
  {
  }

  lemma LowerSlice(s: string, i: nat, j: nat)
    requires i <= j <= |s|
    ensures Lower(s)[i..j] == Lower(s[i..j])
  {
  }

  // -------------------------------------------------------- prefix, suffix

  predicate StartsWith(s: string, prefix: string) {
    |prefix| <= |s| && s[..|prefix|] == prefix
  }

  predicate EndsWith(s: string, suffix: string) {
    |suffix| <= |s| && s[|s| - |suffix|..] == suffix
  }

  /** `s.includes(p)`: `p` starts at some position of `s`. */
  predicate Contains(s: string, p: string)
    decreases |s|
  {
    StartsWith(s, p) || (|s| > 0 && Contains(s[1..], p))
  }

  /** `needles.some(n => s.includes(n))` */
  predicate ContainsAny(s: string, needles: seq<string>) {
    exists n :: n in needles && Contains(s, n)
  }

  lemma {:induction false} ContainsAt(s: string, p: string, i: nat)
    requires i <= |s| && StartsWith(s[i..], p)
    ensures Contains(s, p)
    decreases i
  {
    if i > 0 {
      assert s[1..][i - 1..] == s[i..];
      ContainsAt(s[1..], p, i - 1);
    }
  }

  lemma {:induction false} ContainsWitness(s: string, p: string) returns (i: nat)
    requires Contains(s, p)
    ensures i <= |s| && StartsWith(s[i..], p)
    decreases |s|
  {
    if StartsWith(s, p) {
      i := 0;
    } else {
      var k := ContainsWitness(s[1..], p);
      assert s[1..][k..] == s[k + 1..];
      i := k + 1;
    }
  }

  /** Every character of a needle that is found occurs in the text. */
  lemma ContainsChars(s: string, p: string, k: nat)
    requires Contains(s, p) && k < |p|
    ensures p[k] in s
  {
    var i := ContainsWitness(s, p);
    assert s[i + k] == p[k];
  }

  /** A text lacking a character that every needle holds contains none of them. */
  lemma ContainsNoneLacking(s: string, needles: seq<string>, c: char)
    requires c !in s
    requires forall n :: n in needles ==> c in n
    ensures !ContainsAny(s, needles)
  {
    forall n | n in needles
      ensures !Contains(s, n)
    {
      if Contains(s, n) {
        var k :| 0 <= k < |n| && n[k] == c;
        ContainsChars(s, n, k);
      }
    }
  }

  /** A needle longer than the text is never found. */
  lemma {:induction false} ContainsTooLong(s: string, p: string)
    requires |s| < |p|
    ensures !Contains(s, p)
    decreases |s|
  {
    if |s| > 0 {
      ContainsTooLong(s[1..], p);
    }
  }

  /** `lit` occurs in `s` at position `i`. */
  predicate LitAt(s: string, i: nat, lit: string) {
    i <= |s| && StartsWith(s[i..], lit)
  }

  /** The first position at or after `i` that does not hold white space. */
  function SkipSpaces(s: string, i: nat): (j: nat)
    requires i <= |s|
    ensures i <= j <= |s|
    ensures forall k :: i <= k < j ==> IsSpace(s[k])
    ensures j < |s| ==> !IsSpace(s[j])
    decreases |s| - i
  {
    if i < |s| && IsSpace(s[i]) then SkipSpaces(s, i + 1) else i
  }

  // ----------------------------------------------------------------- trim

  function TrimStart(s: string): (r: string)
    ensures |r| <= |s| && r == s[|s| - |r|..]
    ensures |r| > 0 ==> !IsSpace(r[0])
    ensures forall i :: 0 <= i < |s| - |r| ==> IsSpace(s[i])
    decreases |s|
  {
    if |s| > 0 && IsSpace(s[0]) then TrimStart(s[1..]) else s
  }

  function TrimEnd(s: string): (r: string)
    ensures |r| <= |s| && r == s[..|r|]
    ensures |r| > 0 ==> !IsSpace(r[|r| - 1])
    ensures forall i :: |r| <= i < |s| ==> IsSpace(s[i])
    decreases |s|
  {
    if |s| > 0 && IsSpace(s[|s| - 1]) then TrimEnd(s[..|s| - 1]) else s
  }

  /** `s.trim()`: the longest infix of `s` that neither begins nor ends in
      white space, and the empty string exactly when `s` is all white space. */
  function Trim(s: string): (r: string)
    ensures |r| <= |s|
    ensures |r| > 0 ==> !IsSpace(r[0]) && !IsSpace(r[|r| - 1])
    ensures r == "" <==> forall i :: 0 <= i < |s| ==> IsSpace(s[i])
  {
    var a := TrimStart(s);
    var b := TrimEnd(a);
    TrimPieces(s, a, b);
    b
  }

  lemma TrimPieces(s: string, a: string, b: string)
    requires a == TrimStart(s) && b == TrimEnd(a)
    ensures |b| <= |s|
    ensures |b| > 0 ==> !IsSpace(b[0]) && !IsSpace(b[|b| - 1])
    ensures b == "" <==> forall i :: 0 <= i < |s| ==> IsSpace(s[i])
  {
    if |b| > 0 {
      assert b[0] == a[0];
    }
  }

  // ----------------------------------------------------- lines and joining

  /** `s.split('\n')`: the maximal newline-free pieces, always at least one. */
  function Lines(s: string): (r: seq<string>)
    ensures |r| >= 1
    ensures forall i :: 0 <= i < |r| ==> '\n' !in r[i]
    decreases |s|
  {
    if |s| == 0 then [""]
    else
      var rest := Lines(s[1..]);
      if s[0] == '\n' then [""] + rest
      else [[s[0]] + rest[0]] + rest[1..]
  }

  /** `parts.join(sep)` */
  function Join(parts: seq<string>, sep: string): string
    decreases |parts|
  {
    if |parts| == 0 then ""
    else if |parts| == 1 then parts[0]
    else parts[0] + sep + Join(parts[1..], sep)
  }

  /** Splitting at newlines and joining with newlines gives back the text. */
  lemma {:induction false} JoinLines(s: string)
    ensures Join(Lines(s), "\n") == s
    decreases |s|
  {
    if |s| > 0 {
      JoinLines(s[1..]);
      if s[0] == '\n' {
        JoinLinesNewline(s);
      } else {
        JoinLinesChar(s);
      }
    }
  }

  /** The step of `JoinLines` for text that begins with a newline. */
  lemma JoinLinesNewline(s: string)
    requires |s| > 0 && s[0] == '\n' && Join(Lines(s[1..]), "\n") == s[1..]
    ensures Join(Lines(s), "\n") == s
  {
    var rest := Lines(s[1..]);
    assert Lines(s) == [""] + rest;
    assert ([""] + rest)[1..] == rest;
    assert s == "\n" + s[1..];
  }

  /** The step of `JoinLines` for text that begins with another character. */
  lemma JoinLinesChar(s: string)
    requires |s| > 0 && s[0] != '\n' && Join(Lines(s[1..]), "\n") == s[1..]
    ensures Join(Lines(s), "\n") == s
  {
    var rest := Lines(s[1..]);
    assert Lines(s) == [[s[0]] + rest[0]] + rest[1..];
    JoinFirst(s[0], rest);
    assert s == [s[0]] + s[1..];
  }

  /** Prefixing the first part with a character prefixes the joined text with it. */
  lemma JoinFirst(c: char, parts: seq<string>)
    requires |parts| > 0
    ensures Join([[c] + parts[0]] + parts[1..], "\n") == [c] + Join(parts, "\n")
  {
    if |parts| == 1 {
      assert [[c] + parts[0]] + parts[1..] == [[c] + parts[0]];
    } else {
      JoinFirstMany(c, parts);
    }
  }

  /** `JoinFirst` when a separator follows the first part. */
  lemma JoinFirstMany(c: char, parts: seq<string>)
    requires |parts| > 1
    ensures Join([[c] + parts[0]] + parts[1..], "\n") == [c] + Join(parts, "\n")
  {
    var first := [c] + parts[0];
    var j := Join(parts[1..], "\n");
    assert ([first] + parts[1..])[1..] == parts[1..];
    AppendAssoc([c], parts[0], "\n");
    AppendAssoc([c], parts[0] + "\n", j);
  }

  lemma AppendAssoc(a: string, b: string, c: string)
    ensures (a + b) + c == a + (b + c)
  {
  }

  /** Splitting text that begins with a newline-free piece. */
  lemma {:induction false} LinesPrefix(a: string, t: string)
    requires '\n' !in a
    ensures Lines(a + t) == [a + Lines(t)[0]] + Lines(t)[1..]
    decreases |a|
  {
    if |a| > 0 {
      LinesPrefix(a[1..], t);
      var ls := Lines(t);
      var rest := Lines(a[1..] + t);
      assert (a + t)[1..] == a[1..] + t;
      assert (a + t)[0] == a[0] && a[0] != '\n';
      assert Lines(a + t) == [[a[0]] + rest[0]] + rest[1..];
      assert rest[0] == a[1..] + ls[0] && rest[1..] == ls[1..];
      assert [a[0]] + (a[1..] + ls[0]) == a + ls[0];
    } else {
      var ls := Lines(t);
      assert a + t == t && a + ls[0] == ls[0];
      assert ls == [ls[0]] + ls[1..];
    }
  }

  /** Joining newline-free pieces with newlines and splitting again gives back the pieces. */
  lemma {:induction false} LinesJoin(parts: seq<string>)
    requires |parts| >= 1
    requires forall i :: 0 <= i < |parts| ==> '\n' !in parts[i]
    ensures Lines(Join(parts, "\n")) == parts
    decreases |parts|
  {
    if |parts| == 1 {
      LinesPrefix(parts[0], "");
      assert parts[0] + "" == parts[0];
    } else {
      var rest := Join(parts[1..], "\n");
      LinesJoin(parts[1..]);
      assert ("\n" + rest)[1..] == rest;
      assert Lines("\n" + rest) == [""] + Lines(rest);
      LinesPrefix(parts[0], "\n" + rest);
      assert parts[0] + "\n" + rest == parts[0] + ("\n" + rest);
      assert parts[0] + "" == parts[0];
      assert parts == [parts[0]] + parts[1..];
    }
  }

  /** Joining at most `k` parts of width at most `w` with a one-character separator. */
  lemma {:induction false} JoinBound(parts: seq<string>, sep: string, k: nat, w: nat)
    requires |sep| == 1 && 1 <= k && |parts| <= k
    requires forall i :: 0 <= i < |parts| ==> |parts[i]| <= w
    ensures |Join(parts, sep)| <= k * w + k - 1
    decreases |parts|
  {
    if |parts| > 1 {
      JoinBound(parts[1..], sep, k - 1, w);
    }
  }

  // ----------------------------------------------------------- truncation

  /** `s.length > n ? s.substring(0, n) + '...' : s` */
  function Truncate(s: string, n: nat): (r: string)
    ensures |r| <= n + 3
    ensures |s| <= n ==> r == s
    ensures |s| > n ==> r == s[..n] + "..."
  {
    if |s| > n then s[..n] + "..." else s
  }

  // ----------------------------------------------------------- sequences

  /** `s.filter(f)`: the elements satisfying `f`, in order. */
  function Filter<T>(f: T -> bool, s: seq<T>): (r: seq<T>)
    ensures |r| <= |s|
    ensures forall x :: x in r ==> f(x) && x in s
    ensures forall x :: x in s && f(x) ==> x in r
    decreases |s|
  {
    if |s| == 0 then []
    else if f(s[0]) then [s[0]] + Filter(f, s[1..])
    else Filter(f, s[1..])
  }

  /** Filtering a sequence extended by one element. */
  lemma {:induction false} FilterSnoc<T>(f: T -> bool, s: seq<T>, x: T)
    ensures Filter(f, s + [x]) == Filter(f, s) + (if f(x) then [x] else [])
    decreases |s|
  {
    if |s| == 0 {
      assert s + [x] == [x];
    } else {
      assert (s + [x])[1..] == s[1..] + [x];
      FilterSnoc(f, s[1..], x);
    }
  }

  /** Filtering a non-empty sequence: the filtered front, then the last
      element when it passes. */
  lemma FilterLast<T>(f: T -> bool, s: seq<T>)
    requires |s| > 0
    ensures Filter(f, s) == Filter(f, s[..|s| - 1]) + (if f(s[|s| - 1]) then [s[|s| - 1]] else [])
  {
    FilterSnoc(f, s[..|s| - 1], s[|s| - 1]);
    assert s[..|s| - 1] + [s[|s| - 1]] == s;
  }

  // ----------------------------------------------------------- numbers

  function DigitChar(d: nat): (c: char)
    requires d < 10
    ensures IsDigit(c)
  {
    ('0' as int + d) as char
  }

  /** `String(n)` for a natural number. */
  function NatToString(n: nat): (r: string)
    ensures |r| >= 1
    ensures forall i :: 0 <= i < |r| ==> IsDigit(r[i])
    decreases n
  {
    if n < 10 then [DigitChar(n)] else NatToString(n / 10) + [DigitChar(n % 10)]
  }

  // ---------------------------------------------------------- map tallies

  /** The sum of the values of a finite map. */
  ghost function SumValues<K>(m: map<K, nat>): nat
    decreases |m|
  {
    if |m| == 0 then 0
    else
      var k := AnyKey(m);
      RemoveKeySize(m, k);
      m[k] + SumValues(m - {k})
  }

  ghost function AnyKey<K>(m: map<K, nat>): (k: K)
    requires |m| > 0
    ensures k in m
  {
    var k :| k in m; k
  }

  lemma RemoveKeySize<K>(m: map<K, nat>, k: K)
    requires k in m
    ensures |m - {k}| == |m| - 1
  {
    assert (m - {k}).Keys == m.Keys - {k};
  }

  /** `m[k] = (m[k] || 0) + 1` */
  function Increment<K(!new)>(m: map<K, nat>, k: K): (r: map<K, nat>)
  {
    m[k := (if k in m then m[k] else 0) + 1]
  }

  /** The sum does not depend on which key is taken out first. */
  lemma {:induction false} SumValuesRemove<K>(m: map<K, nat>, k: K)
    requires k in m
    ensures SumValues(m) == m[k] + SumValues(m - {k})
    decreases |m|
  {
    RemoveKeySize(m, k);
    var j := AnyKey(m);
    if j != k {
      RemoveKeySize(m, j);
      SumValuesRemove(m - {j}, k);
      SumValuesRemove(m - {k}, j);
      assert m - {j} - {k} == m - {k} - {j};
    }
  }

  /** Setting one key adds its new value to the sum of the others. */
  lemma SumValuesUpdate<K>(m: map<K, nat>, k: K, v: nat)
    ensures SumValues(m[k := v]) == v + SumValues(m - {k})
  {
    SumValuesRemove(m[k := v], k);
    assert m[k := v] - {k} == m - {k};
  }

  /** Incrementing one entry adds one to the sum. */
  lemma SumValuesIncrement<K(!new)>(m: map<K, nat>, k: K)
    ensures SumValues(Increment(m, k)) == SumValues(m) + 1
  {
    if k in m {
      SumValuesBump(m, k);
    } else {
      SumValuesAdd(m, k);
    }
  }

  /** Raising a present key by one raises the sum by one. */
  lemma SumValuesBump<K>(m: map<K, nat>, k: K)
    requires k in m
    ensures SumValues(m[k := m[k] + 1]) == SumValues(m) + 1
  {
    SumValuesUpdate(m, k, m[k] + 1);
    SumValuesRemove(m, k);
  }

  /** Adding an absent key with value one raises the sum by one. */
  lemma SumValuesAdd<K>(m: map<K, nat>, k: K)
    requires k !in m
    ensures SumValues(m[k := 1]) == SumValues(m) + 1
  {
    SumValuesUpdate(m, k, 1);
    assert m - {k} == m;
  }

  /** The number of elements of `xs` whose key is `k`. */
  function CountKey<T, K(==)>(xs: seq<T>, key: T -> K, k: K): nat
    decreases |xs|
  {
    if |xs| == 0 then 0
    else CountKey(xs[..|xs| - 1], key, k) + (if key(xs[|xs| - 1]) == k then 1 else 0)
  }

  /** `m` counts the elements of `xs` by key: a key is present exactly when
      it occurs, with its number of occurrences as value. */
  ghost predicate Tallies<T, K(!new)>(m: map<K, nat>, xs: seq<T>, key: T -> K) {
    && (forall k :: k in m <==> CountKey(xs, key, k) > 0)
    && (forall k :: k in m ==> m[k] == CountKey(xs, key, k))
  }

  /** Counting one more element into a tally of `xs` tallies `xs + [x]` and
      raises the sum of the values by one. */
  lemma TallyStep<T, K(!new)>(m: map<K, nat>, xs: seq<T>, key: T -> K, x: T)
    requires Tallies(m, xs, key)
    ensures Tallies(Increment(m, key(x)), xs + [x], key)
    ensures SumValues(Increment(m, key(x))) == SumValues(m) + 1
  {
    assert (xs + [x])[..|xs|] == xs;
    SumValuesIncrement(m, key(x));
  }
}
