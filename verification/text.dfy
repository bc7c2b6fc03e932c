/** The JavaScript string and array built-ins the application relies on:
    `String.prototype.trim`, `includes`, `replace` with a string pattern (first
    occurrence only), `Array.prototype.join`, and the decimal rendering of a
    non-negative integer by template interpolation. */
module Text {
  import opened Types

  /** The characters `trim` removes: WhiteSpace and LineTerminator of
      sections 12.2 and 12.3 of ECMA-262. */
  predicate IsJsSpace(c: char) {
    var k := c as int;
    || k == 0x09 || k == 0x0A || k == 0x0B || k == 0x0C || k == 0x0D
    || k == 0x20 || k == 0xA0 || k == 0x1680
    || (0x2000 <= k <= 0x200A)
    || k == 0x2028 || k == 0x2029 || k == 0x202F || k == 0x205F
    || k == 0x3000 || k == 0xFEFF
  }

  /** Neither end of `s` is a space, so `trim` has nothing to remove. */
  predicate Trimmed(s: string) {
    |s| == 0 || (!IsJsSpace(s[0]) && !IsJsSpace(s[|s| - 1]))
  }

  function TrimStart(s: string): (r: string)
    ensures |r| <= |s| && r == s[|s| - |r|..]
    ensures forall i :: 0 <= i < |s| - |r| ==> IsJsSpace(s[i])
    ensures |r| == 0 || !IsJsSpace(r[0])
  {
    if |s| > 0 && IsJsSpace(s[0]) then TrimStart(s[1..]) else s
  }

  function TrimEnd(s: string): (r: string)
    ensures |r| <= |s| && r == s[..|r|]
    ensures forall i :: |r| <= i < |s| ==> IsJsSpace(s[i])
    ensures |r| == 0 || !IsJsSpace(r[|r| - 1])
  {
    if |s| > 0 && IsJsSpace(s[|s| - 1]) then TrimEnd(s[..|s| - 1]) else s
  }

  /** `s` occurs in `t` at offset `i`. */
  predicate OccursAt(t: string, s: string, i: nat) {
    i + |s| <= |t| && t[i..i + |s|] == s
  }

  /** `t.includes(s)`. */
  predicate Contains(t: string, s: string) {
    exists i: nat :: i <= |t| && OccursAt(t, s, i)
  }

  /** `s.trim()`: `s` without its leading and trailing spaces. */
  function Trim(s: string): (r: string)
    ensures Trimmed(r)
    ensures Trimmed(s) ==> r == s
  {
    TrimEnd(TrimStart(s))
  }

  /** What `trim` keeps is a slice of its input, and it is empty exactly when
      the input is all spaces. */
  lemma TrimSlice(s: string)
    ensures Contains(s, Trim(s))
    ensures |Trim(s)| == 0 <==> forall i :: 0 <= i < |s| ==> IsJsSpace(s[i])
  {
    var a := TrimStart(s);
    var r := TrimEnd(a);
    var d := |s| - |a|;
    assert s[d..][..|r|] == s[d..d + |r|];
    assert OccursAt(s, r, d);
    if |r| == 0 {
      assert |a| == 0;
    } else {
      assert r[0] == s[d];
    }
  }

  /** A slice of a slice is a slice. */
  lemma ContainsTransitive(u: string, t: string, s: string)
    requires Contains(u, t) && Contains(t, s)
    ensures Contains(u, s)
  {
    var i: nat :| i <= |u| && OccursAt(u, t, i);
    var j: nat :| j <= |t| && OccursAt(t, s, j);
    forall k | 0 <= k < |s| ensures u[i + j + k] == s[k] {
      assert s[k] == t[j + k] == u[i + j + k];
    }
    assert u[i + j..i + j + |s|] == s;
    assert OccursAt(u, s, i + j);
  }

  lemma ContainsPrefixed(a: string, t: string, s: string)
    requires Contains(t, s)
    ensures Contains(a + t, s) && Contains(t + a, s)
  {
    var i: nat :| i <= |t| && OccursAt(t, s, i);
    assert (a + t)[|a| + i..|a| + i + |s|] == t[i..i + |s|];
    assert OccursAt(a + t, s, |a| + i);
    assert (t + a)[i..i + |s|] == t[i..i + |s|];
    assert OccursAt(t + a, s, i);
  }

  lemma ContainsSelf(s: string)
    ensures Contains(s, s)
  {
    assert OccursAt(s, s, 0);
  }

  /** A pattern whose first character does not appear in `t` does not occur in it. */
  lemma AbsentLead(t: string, s: string)
    requires |s| > 0 && s[0] !in t
    ensures !Contains(t, s)
  {
    forall i: nat | i <= |t| ensures !OccursAt(t, s, i) {
      if i + |s| <= |t| {
        assert t[i..i + |s|][0] == t[i];
      }
    }
  }

  /** The first offset at or after `from` where `s` occurs in `t`. */
  function FindFrom(t: string, s: string, from: nat): (r: Option<nat>)
    ensures r.Some? ==> from <= r.value && OccursAt(t, s, r.value)
    ensures r.Some? ==> forall j: nat :: from <= j < r.value ==> !OccursAt(t, s, j)
    ensures r.None? ==> forall j: nat :: from <= j ==> !OccursAt(t, s, j)
    decreases |t| - from
  {
    if from + |s| > |t| then None
    else if t[from..from + |s|] == s then Some(from)
    else FindFrom(t, s, from + 1)
  }

  /** `t.indexOf(s)`, as an option. */
  function Find(t: string, s: string): (r: Option<nat>)
    ensures r.None? <==> !Contains(t, s)
    ensures r.Some? ==> OccursAt(t, s, r.value) && forall j: nat :: j < r.value ==> !OccursAt(t, s, j)
  {
    FindFrom(t, s, 0)
  }

  /** `t.replace(s, '')`: removes the first occurrence of `s`, if any. */
  function RemoveFirst(t: string, s: string): (r: string)
    ensures !Contains(t, s) ==> r == t
    ensures Contains(t, s) ==> |r| == |t| - |s|
  {
    match Find(t, s)
    case None => t
    case Some(i) => t[..i] + t[i + |s|..]
  }

  /** Removing the first occurrence from `a + s + b`, when no occurrence of
      `s` starts inside `a`, leaves exactly `a + b`. */
  lemma RemoveFirstSplit(a: string, s: string, b: string)
    requires |s| > 0
    requires forall j: nat :: j < |a| ==> !OccursAt(a + s + b, s, j)
    ensures RemoveFirst(a + s + b, s) == a + b
  {
    var t := a + s + b;
    assert t[|a|..|a| + |s|] == s;
    assert OccursAt(t, s, |a|);
    assert Find(t, s) == Some(|a|);
    assert t[..|a|] == a;
    assert t[|a| + |s|..] == b;
  }

  /** No occurrence of `s` in `a + s + b` starts inside `a` when `a` does not
      contain `s` and the first character of `s` does not recur in it: one
      starting inside `a` would either lie in `a` or overlap the `s` that
      follows, and then the first character of that `s` would recur. */
  lemma NoEarlierOccurrence(a: string, s: string, b: string)
    requires |s| > 0 && !Contains(a, s) && s[0] !in s[1..]
    ensures forall j: nat :: j < |a| ==> !OccursAt(a + s + b, s, j)
  {
    var t := a + s + b;
    forall j: nat | j < |a| ensures !OccursAt(t, s, j) {
      if j + |s| <= |a| {
        assert t[j..j + |s|] == a[j..j + |s|];
        assert !OccursAt(a, s, j);
      } else if j + |s| <= |t| {
        var d := |a| - j;
        assert t[j..j + |s|][d] == t[|a|] == s[0];
        assert s[d] != s[0] by { assert s[d] == s[1..][d - 1]; }
      }
    }
  }

  /** No occurrence of `s` starts inside `a` when `a` lacks its first character. */
  lemma AbsentLeadNoEarlier(a: string, s: string, b: string)
    requires |s| > 0 && s[0] !in a
    ensures forall j: nat :: j < |a| ==> !OccursAt(a + s + b, s, j)
  {
    var t := a + s + b;
    forall j: nat | j < |a| ensures !OccursAt(t, s, j) {
      if j + |s| <= |t| {
        assert t[j..j + |s|][0] == t[j] == a[j];
      }
    }
  }

  /** Appending one trailing space to a trimmed string is undone by `trim`. */
  lemma TrimTrailingSpace(s: string)
    requires Trimmed(s)
    ensures Trim(s + " ") == s
  {
    var t := s + " ";
    if |s| == 0 {
      assert TrimStart(t) == TrimStart(t[1..]);
      assert t[1..] == [];
    } else {
      assert TrimStart(t) == t;
      assert t[..|t| - 1] == s;
      assert TrimEnd(t) == TrimEnd(s);
    }
  }

  /** `parts.join(sep)`. */
  function Join(parts: seq<string>, sep: string): (r: string)
    ensures |parts| > 0 ==> |r| == TotalLength(parts) + (|parts| - 1) * |sep|
  {
    if |parts| == 0 then ""
    else if |parts| == 1 then parts[0]
    else parts[0] + sep + Join(parts[1..], sep)
  }

  function TotalLength(parts: seq<string>): nat {
    if |parts| == 0 then 0 else |parts[0]| + TotalLength(parts[1..])
  }

  /** Every joined part appears in the joined string. */
  lemma {:induction false} JoinContainsEach(parts: seq<string>, sep: string, k: nat)
    requires k < |parts|
    ensures Contains(Join(parts, sep), parts[k])
    decreases |parts|
  {
    if |parts| == 1 {
      ContainsSelf(parts[0]);
    } else if k == 0 {
      ContainsSelf(parts[0]);
      ContainsPrefixed(sep + Join(parts[1..], sep), parts[0], parts[0]);
      assert parts[0] + sep + Join(parts[1..], sep) == parts[0] + (sep + Join(parts[1..], sep));
    } else {
      JoinContainsEach(parts[1..], sep, k - 1);
      ContainsPrefixed(parts[0] + sep, Join(parts[1..], sep), parts[k]);
    }
  }

  /** Every part appears in a prefixed join. */
  lemma JoinShowsAll(prefix: string, parts: seq<string>, sep: string)
    ensures forall k :: 0 <= k < |parts| ==> Contains(prefix + Join(parts, sep), parts[k])
  {
    forall k | 0 <= k < |parts| ensures Contains(prefix + Join(parts, sep), parts[k]) {
      JoinContainsEach(parts, sep, k);
      ContainsPrefixed(prefix, Join(parts, sep), parts[k]);
    }
  }

  /** Joining one more part appends the separator and that part. */
  lemma {:induction false} JoinSnoc(parts: seq<string>, x: string, sep: string)
    requires |parts| > 0
    ensures Join(parts + [x], sep) == Join(parts, sep) + sep + x
    decreases |parts|
  {
    if |parts| == 1 {
      assert (parts + [x])[1..] == [x];
    } else {
      assert (parts + [x])[1..] == parts[1..] + [x];
      JoinSnoc(parts[1..], x, sep);
    }
  }

  /** Splits `s` at every occurrence of the character `c` (`s.split(c)`). */
  function Split(s: string, c: char): (r: seq<string>)
    ensures |r| > 0
    ensures forall k :: 0 <= k < |r| ==> c !in r[k]
  {
    if |s| == 0 then [""]
    else
      var rest := Split(s[1..], c);
      if s[0] == c then [""] + rest
      else [[s[0]] + rest[0]] + rest[1..]
  }

  lemma {:induction false} SplitAfter(a: string, c: char, b: string)
    requires c !in a
    ensures Split(a + [c] + b, c) == [a] + Split(b, c)
    decreases |a|
  {
    var t := a + [c] + b;
    if |a| == 0 {
      assert t[1..] == b;
    } else {
      assert t[1..] == a[1..] + [c] + b;
      SplitAfter(a[1..], c, b);
      assert [a[0]] + a[1..] == a;
    }
  }

  lemma {:induction false} SplitNone(a: string, c: char)
    requires c !in a
    ensures Split(a, c) == [a]
    decreases |a|
  {
    if |a| > 0 {
      SplitNone(a[1..], c);
      assert [a[0]] + a[1..] == a;
    }
  }

  /** Splitting a join on a one-character separator that no part contains
      gives the parts back. */
  lemma {:induction false} SplitJoin(parts: seq<string>, c: char)
    requires |parts| > 0
    requires forall k :: 0 <= k < |parts| ==> c !in parts[k]
    ensures Split(Join(parts, [c]), c) == parts
    decreases |parts|
  {
    if |parts| == 1 {
      SplitNone(parts[0], c);
    } else {
      SplitJoin(parts[1..], c);
      SplitAfter(parts[0], c, Join(parts[1..], [c]));
      assert [parts[0]] + parts[1..] == parts;
    }
  }

  predicate IsDigit(c: char) {
    '0' as int <= c as int <= '9' as int
  }

  function DigitChar(d: nat): (c: char)
    requires d < 10
    ensures IsDigit(c) && (c as int) - ('0' as int) == d
  {
    (('0' as int) + d) as char
  }

  /** The decimal rendering of a number (`${n}` / `n.toString()`). */
  function Decimal(n: nat): (r: string)
    ensures |r| > 0
    ensures forall i :: 0 <= i < |r| ==> IsDigit(r[i])
    ensures r[0] == '0' ==> n == 0
  {
    if n < 10 then [DigitChar(n)] else Decimal(n / 10) + [DigitChar(n % 10)]
  }

  /** Reads a string of decimal digits back as a number. */
  function ParseDecimal(s: string): nat
    requires forall i :: 0 <= i < |s| ==> IsDigit(s[i])
  {
    if |s| == 0 then 0
    else
      var d := s[|s| - 1];
      assert IsDigit(d);
      10 * ParseDecimal(s[..|s| - 1]) + ((d as int) - ('0' as int))
  }

  /** `s` is a decimal numeral whose value is `n`. */
  predicate Denotes(s: string, n: int) {
    && |s| > 0
    && (forall i :: 0 <= i < |s| ==> IsDigit(s[i]))
    && ParseDecimal(s) == n
  }

  lemma {:induction false} ParseDecimalInverse(n: nat)
    ensures ParseDecimal(Decimal(n)) == n
    decreases n
  {
    if n >= 10 {
      ParseDecimalInverse(n / 10);
      var r := Decimal(n);
      assert r[..|r| - 1] == Decimal(n / 10);
    }
  }
}
