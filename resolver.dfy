/**
 * The column-name resolver of Excel-visualizer.py: `_norm`, the lookup map that
 * `{_norm(c): c for c in df.columns}` builds, and `resolve_columns`.
 */
module Resolver {
  import opened Wrappers
  import opened Text

  /** No upper-case letter, no underscore, no whitespace: the shape of every `_norm` result. */
  predicate IsNormal(s: string) {
    forall i :: 0 <= i < |s| ==> !IsUpper(s[i]) && s[i] != '_' && !IsSpace(s[i])
  }

  /**
   * `_norm(s)`: lower-case, drop every `_`, drop every whitespace character.
   * (Lower-casing never produces `_` or whitespace, so the three steps can be done per character.)
   */
  function Norm(s: string): (r: string)
    ensures IsNormal(r)
    ensures |r| <= |s|
  {
    if s == [] then []
    else if s[0] == '_' || IsSpace(s[0]) then Norm(s[1..])
    else [Lower(s[0])] + Norm(s[1..])
  }

  /** `Norm` leaves exactly the normal strings unchanged. */
  lemma {:induction false} NormFixesExactlyNormal(s: string)
    ensures Norm(s) == s <==> IsNormal(s)
  {
    if s != [] {
      NormFixesExactlyNormal(s[1..]);
      if IsNormal(s) {
        assert IsNormal(s[1..]) by {
          forall i | 0 <= i < |s| - 1 ensures !IsUpper(s[1..][i]) && s[1..][i] != '_' && !IsSpace(s[1..][i]) {
            assert s[1..][i] == s[i + 1];
          }
        }
        assert [s[0]] + s[1..] == s;
      } else if s[0] == '_' || IsSpace(s[0]) {
        assert |Norm(s)| <= |s[1..]| < |s|;
      }
    }
  }

  /** `_norm(_norm(s)) == _norm(s)`. */
  lemma NormIdempotent(s: string)
    ensures Norm(Norm(s)) == Norm(s)
  {
    NormFixesExactlyNormal(Norm(s));
  }

  /** On a word made of ASCII letters, `_norm` only lower-cases. */
  lemma {:induction false} NormOfLetters(s: string)
    requires forall i :: 0 <= i < |s| ==> IsLetter(s[i])
    ensures |Norm(s)| == |s| && forall i :: 0 <= i < |s| ==> Norm(s)[i] == Lower(s[i])
  {
    if s != [] {
      NormOfLetters(s[1..]);
    }
  }

  /** A word of ASCII letters normalises to its letter-by-letter lower-casing `k`. */
  lemma NormOfWord(s: string, k: string)
    requires |s| == |k| && forall i :: 0 <= i < |s| ==> IsLetter(s[i]) && Lower(s[i]) == k[i]
    ensures Norm(s) == k
  {
    NormOfLetters(s);
  }

  // ---------------------------------------------------------------------------
  // The lookup map: a Python dict, i.e. entries in insertion order with distinct keys.

  datatype Entry = Entry(key: string, header: string)

  type NormMap = seq<Entry>

  /** Position of key `k` in `m`, or `|m|` when `k` is not a key. */
  function Find(m: NormMap, k: string): (p: nat)
    ensures p <= |m|
    ensures p < |m| ==> m[p].key == k
    ensures forall q :: 0 <= q < p ==> m[q].key != k
  {
    if |m| == 0 then 0 else if m[0].key == k then 0 else 1 + Find(m[1..], k)
  }

  /** `k in d`. */
  predicate HasKey(m: NormMap, k: string) {
    Find(m, k) < |m|
  }

  /** `d[k]` for a key that is present. */
  function Get(m: NormMap, k: string): string
    requires HasKey(m, k)
  {
    m[Find(m, k)].header
  }

  /** `d[k] = v`: an existing key keeps its position and takes the new value; a new key goes last. */
  function Put(m: NormMap, k: string, v: string): NormMap {
    var p := Find(m, k);
    if p < |m| then m[p := Entry(k, v)] else m + [Entry(k, v)]
  }

  /** `{_norm(c): c for c in cols}`. */
  function BuildNormMap(cols: seq<string>): NormMap {
    if cols == [] then []
    else
      var c := cols[|cols| - 1];
      Put(BuildNormMap(cols[..|cols| - 1]), Norm(c), c)
  }

  ghost predicate DistinctKeys(m: NormMap) {
    forall p, q :: 0 <= p < q < |m| ==> m[p].key != m[q].key
  }

  /** `h` is the last header in `cols` whose normal form is `k`. */
  ghost predicate IsLastWithKey(cols: seq<string>, k: string, h: string) {
    exists i :: 0 <= i < |cols| && Norm(cols[i]) == k && cols[i] == h
      && forall j :: i < j < |cols| ==> Norm(cols[j]) != k
  }

  /** Some header with normal form `a` comes before every header with normal form `b`. */
  ghost predicate FirstBefore(cols: seq<string>, a: string, b: string) {
    exists i :: 0 <= i < |cols| && Norm(cols[i]) == a
      && forall j :: 0 <= j <= i ==> Norm(cols[j]) != b
  }

  /**
   * What the dict comprehension promises: one entry per distinct normal form, holding the
   * LAST header with that form, with the entries ordered by FIRST occurrence.
   */
  ghost predicate Describes(m: NormMap, cols: seq<string>) {
    && DistinctKeys(m)
    && (forall i :: 0 <= i < |cols| ==> HasKey(m, Norm(cols[i])))
    && (forall p :: 0 <= p < |m| ==> IsLastWithKey(cols, m[p].key, m[p].header))
    && (forall p, q :: 0 <= p < q < |m| ==> FirstBefore(cols, m[p].key, m[q].key))
  }

  lemma ExtendLast(pre: seq<string>, c: string, k: string, h: string)
    requires IsLastWithKey(pre, k, h) && Norm(c) != k
    ensures IsLastWithKey(pre + [c], k, h)
  {
    var i :| 0 <= i < |pre| && Norm(pre[i]) == k && pre[i] == h
      && forall j :: i < j < |pre| ==> Norm(pre[j]) != k;
    var cols := pre + [c];
    assert Norm(cols[i]) == k && cols[i] == h;
    assert forall j :: i < j < |cols| ==> Norm(cols[j]) != k by {
      forall j | i < j < |cols| ensures Norm(cols[j]) != k {
        if j < |pre| { assert cols[j] == pre[j]; }
      }
    }
  }

  lemma ExtendFirstBefore(pre: seq<string>, c: string, a: string, b: string)
    requires FirstBefore(pre, a, b)
    ensures FirstBefore(pre + [c], a, b)
  {
    var i :| 0 <= i < |pre| && Norm(pre[i]) == a && forall j :: 0 <= j <= i ==> Norm(pre[j]) != b;
    var cols := pre + [c];
    assert Norm(cols[i]) == a;
    assert forall j :: 0 <= j <= i ==> cols[j] == pre[j];
  }

  /** One step of the comprehension for a header whose normal form is already a key. */
  lemma PutExisting(m0: NormMap, pre: seq<string>, c: string)
    requires Describes(m0, pre) && HasKey(m0, Norm(c))
    ensures Describes(Put(m0, Norm(c), c), pre + [c])
  {
    PutExistingKeys(m0, pre, c);
    PutExistingLast(m0, pre, c);
    PutExistingOrder(m0, pre, c);
  }

  /** Overwriting an existing key changes no key, so the keys stay distinct and in first-occurrence order. */
  lemma PutExistingOrder(m0: NormMap, pre: seq<string>, c: string)
    requires Describes(m0, pre) && HasKey(m0, Norm(c))
    ensures var m, cols := Put(m0, Norm(c), c), pre + [c];
      && DistinctKeys(m)
      && forall p, q :: 0 <= p < q < |m| ==> FirstBefore(cols, m[p].key, m[q].key)
  {
    var m := Put(m0, Norm(c), c);
    assert m == m0[Find(m0, Norm(c)) := Entry(Norm(c), c)];
    assert forall q :: 0 <= q < |m| ==> m[q].key == m0[q].key;
    forall p, q | 0 <= p < q < |m| ensures FirstBefore(pre + [c], m[p].key, m[q].key) {
      ExtendFirstBefore(pre, c, m0[p].key, m0[q].key);
    }
  }

  /** Overwriting an existing key keeps every header's normal form a key. */
  lemma PutExistingKeys(m0: NormMap, pre: seq<string>, c: string)
    requires Describes(m0, pre) && HasKey(m0, Norm(c))
    ensures var m, cols := Put(m0, Norm(c), c), pre + [c];
      forall i :: 0 <= i < |cols| ==> HasKey(m, Norm(cols[i]))
  {
    var k, cols := Norm(c), pre + [c];
    var p0 := Find(m0, k);
    var m := Put(m0, k, c);
    assert m == m0[p0 := Entry(k, c)];
    forall i | 0 <= i < |cols| ensures HasKey(m, Norm(cols[i])) {
      var ki := Norm(cols[i]);
      var pi := if i < |pre| then (assert cols[i] == pre[i]; Find(m0, ki)) else p0;
      assert m[pi].key == ki;
    }
  }

  /** Overwriting an existing key keeps every entry's header the last one with its form. */
  lemma PutExistingLast(m0: NormMap, pre: seq<string>, c: string)
    requires Describes(m0, pre) && HasKey(m0, Norm(c))
    ensures var m, cols := Put(m0, Norm(c), c), pre + [c];
      forall p :: 0 <= p < |m| ==> IsLastWithKey(cols, m[p].key, m[p].header)
  {
    var k, cols := Norm(c), pre + [c];
    var p0 := Find(m0, k);
    var m := Put(m0, k, c);
    assert m == m0[p0 := Entry(k, c)];
    forall p | 0 <= p < |m| ensures IsLastWithKey(cols, m[p].key, m[p].header) {
      if p == p0 {
        assert Norm(cols[|pre|]) == k && cols[|pre|] == c;
      } else {
        ExtendLast(pre, c, m0[p].key, m0[p].header);
      }
    }
  }

  /** A header with a new normal form: no earlier header has that form. */
  lemma FreshKeyIsNew(m0: NormMap, pre: seq<string>, k: string)
    requires Describes(m0, pre) && !HasKey(m0, k)
    ensures forall j :: 0 <= j < |pre| ==> Norm(pre[j]) != k
  {
    forall j | 0 <= j < |pre| ensures Norm(pre[j]) != k {
      assert HasKey(m0, Norm(pre[j]));
    }
  }

  /** The new last entry comes after every entry already there. */
  lemma FreshKeyComesLast(m0: NormMap, pre: seq<string>, c: string, p: int)
    requires Describes(m0, pre) && !HasKey(m0, Norm(c)) && 0 <= p < |m0|
    ensures FirstBefore(pre + [c], m0[p].key, Norm(c))
  {
    var k, cols := Norm(c), pre + [c];
    FreshKeyIsNew(m0, pre, k);
    assert IsLastWithKey(pre, m0[p].key, m0[p].header);
    var i :| 0 <= i < |pre| && Norm(pre[i]) == m0[p].key && pre[i] == m0[p].header
      && forall j :: i < j < |pre| ==> Norm(pre[j]) != m0[p].key;
    assert forall j :: 0 <= j <= i ==> cols[j] == pre[j];
    assert Norm(cols[i]) == m0[p].key;
  }

  /** One step of the comprehension for a header with a new normal form. */
  lemma PutFresh(m0: NormMap, pre: seq<string>, c: string)
    requires Describes(m0, pre) && !HasKey(m0, Norm(c))
    ensures Describes(Put(m0, Norm(c), c), pre + [c])
  {
    var k, cols := Norm(c), pre + [c];
    var m := Put(m0, k, c);
    assert m == m0 + [Entry(k, c)];
    PutFreshKeys(m0, pre, c);
    forall p | 0 <= p < |m| ensures IsLastWithKey(cols, m[p].key, m[p].header) {
      if p == |m0| {
        assert Norm(cols[|pre|]) == k && cols[|pre|] == c;
      } else {
        ExtendLast(pre, c, m0[p].key, m0[p].header);
      }
    }
    PutFreshOrder(m0, pre, c);
  }

  /** Appending a new key keeps the keys distinct and every header's normal form a key. */
  lemma PutFreshKeys(m0: NormMap, pre: seq<string>, c: string)
    requires Describes(m0, pre) && !HasKey(m0, Norm(c))
    ensures var m := m0 + [Entry(Norm(c), c)];
      DistinctKeys(m) && forall i :: 0 <= i < |pre + [c]| ==> HasKey(m, Norm((pre + [c])[i]))
  {
    var k, cols := Norm(c), pre + [c];
    var m := m0 + [Entry(k, c)];
    forall i | 0 <= i < |cols| ensures HasKey(m, Norm(cols[i])) {
      var ki := Norm(cols[i]);
      var pi := if i < |pre| then (assert cols[i] == pre[i]; Find(m0, ki)) else |m0|;
      assert m[pi].key == ki;
    }
  }

  /** Appending a new key keeps the entries ordered by first occurrence. */
  lemma PutFreshOrder(m0: NormMap, pre: seq<string>, c: string)
    requires Describes(m0, pre) && !HasKey(m0, Norm(c))
    ensures var m := m0 + [Entry(Norm(c), c)];
      forall p, q :: 0 <= p < q < |m| ==> FirstBefore(pre + [c], m[p].key, m[q].key)
  {
    var m := m0 + [Entry(Norm(c), c)];
    forall p, q | 0 <= p < q < |m| ensures FirstBefore(pre + [c], m[p].key, m[q].key) {
      if q < |m0| {
        ExtendFirstBefore(pre, c, m0[p].key, m0[q].key);
      } else {
        FreshKeyComesLast(m0, pre, c, p);
      }
    }
  }

  /**
   * The lookup map built from the headers has one entry per distinct normal form; when several
   * headers share a form, the entry holds the last of them but sits where the first one was.
   */
  lemma {:induction false} BuildNormMapDescribes(cols: seq<string>)
    ensures Describes(BuildNormMap(cols), cols)
  {
    if cols != [] {
      var pre, c := cols[..|cols| - 1], cols[|cols| - 1];
      assert cols == pre + [c];
      BuildNormMapDescribes(pre);
      if HasKey(BuildNormMap(pre), Norm(c)) {
        PutExisting(BuildNormMap(pre), pre, c);
      } else {
        PutFresh(BuildNormMap(pre), pre, c);
      }
    }
  }

  /** The lookup keys are exactly the normal forms of the headers. */
  lemma LookupKeysAreNormalForms(cols: seq<string>, k: string)
    ensures HasKey(BuildNormMap(cols), k) <==> exists i :: 0 <= i < |cols| && Norm(cols[i]) == k
  {
    var m := BuildNormMap(cols);
    BuildNormMapDescribes(cols);
    if HasKey(m, k) {
      assert IsLastWithKey(cols, m[Find(m, k)].key, m[Find(m, k)].header);
    }
  }

  // ---------------------------------------------------------------------------
  // resolve_columns

  /** `w in k or k in w`. */
  predicate Related(w: string, k: string) {
    Contains(w, k) || Contains(k, w)
  }

  /** `[k for k in norm_map.keys() if w in k or k in w]`. */
  function Candidates(m: NormMap, w: string): (ks: seq<string>)
    ensures forall j :: 0 <= j < |ks| ==> Related(w, ks[j]) && HasKey(m, ks[j])
  {
    if m == [] then []
    else (if Related(w, m[0].key) then [m[0].key] else []) + Candidates(m[1..], w)
  }

  /** Position of the first entry whose key is related to `w`, or `|m|` when there is none. */
  function FirstRelated(m: NormMap, w: string): (p: nat)
    ensures p <= |m|
    ensures p < |m| ==> Related(w, m[p].key)
    ensures forall q :: 0 <= q < p ==> !Related(w, m[q].key)
  {
    if |m| == 0 then 0 else if Related(w, m[0].key) then 0 else 1 + FirstRelated(m[1..], w)
  }

  /** The candidate list is empty exactly when no key is related, and otherwise starts with the first related key. */
  lemma {:induction false} FirstCandidate(m: NormMap, w: string)
    ensures |Candidates(m, w)| > 0 <==> FirstRelated(m, w) < |m|
    ensures |Candidates(m, w)| > 0 ==> Candidates(m, w)[0] == m[FirstRelated(m, w)].key
  {
    if m != [] && !Related(w, m[0].key) {
      FirstCandidate(m[1..], w);
      assert Candidates(m, w) == Candidates(m[1..], w);
    }
  }

  /**
   * What `resolve_columns` stores for one wanted key `w`: an exact key always resolves, and
   * nothing resolves exactly when there is no exact key and no candidate.
   */
  function ResolveKey(m: NormMap, w: string): (r: Option<string>)
    ensures HasKey(m, w) ==> r.Some?
    ensures r.None? <==> !HasKey(m, w) && Candidates(m, w) == []
  {
    if HasKey(m, w) then Some(Get(m, w))
    else
      var candidates := Candidates(m, w);
      if |candidates| > 0 then Some(Get(m, candidates[0])) else None
  }

  /** Without an exact key, the first related key in map order decides; none related means None. */
  lemma FallbackIsFirstRelated(m: NormMap, w: string)
    requires DistinctKeys(m) && !HasKey(m, w)
    ensures ResolveKey(m, w).None? <==> forall p :: 0 <= p < |m| ==> !Related(w, m[p].key)
    ensures ResolveKey(m, w).Some? ==>
      exists p :: 0 <= p < |m| && Related(w, m[p].key) && ResolveKey(m, w).value == m[p].header
        && forall q :: 0 <= q < p ==> !Related(w, m[q].key)
  {
    FirstCandidate(m, w);
    var p := FirstRelated(m, w);
    if p < |m| {
      assert Find(m, m[p].key) == p;
    }
  }

  /** Every resolved value is one of the table's headers. */
  lemma ResolvedIsHeader(cols: seq<string>, w: string)
    ensures ResolveKey(BuildNormMap(cols), w).Some? ==> ResolveKey(BuildNormMap(cols), w).value in cols
  {
    var m := BuildNormMap(cols);
    BuildNormMapDescribes(cols);
    var r := ResolveKey(m, w);
    if r.Some? {
      var p: nat :| p < |m| && r.value == m[p].header;
      assert IsLastWithKey(cols, m[p].key, m[p].header);
    }
  }

  /**
   * An exact normal-form match wins: the result is the last header whose normal form is `w`,
   * even if other headers contain `w`.
   */
  lemma ExactMatchWins(cols: seq<string>, w: string, i: int)
    requires 0 <= i < |cols| && Norm(cols[i]) == w
    ensures ResolveKey(BuildNormMap(cols), w).Some?
    ensures IsLastWithKey(cols, w, ResolveKey(BuildNormMap(cols), w).value)
  {
    BuildNormMapDescribes(cols);
    var m := BuildNormMap(cols);
    assert HasKey(m, w);
    assert m[Find(m, w)].key == w;
  }

  /**
   * With no header of normal form `w`, the result is the header stored under the first
   * lookup key related to `w`, and it is None exactly when no key is related.
   */
  lemma NoExactMatchTakesFirstRelated(cols: seq<string>, w: string)
    requires forall i :: 0 <= i < |cols| ==> Norm(cols[i]) != w
    ensures var m := BuildNormMap(cols);
      && (ResolveKey(m, w).None? <==> forall p :: 0 <= p < |m| ==> !Related(w, m[p].key))
      && (ResolveKey(m, w).Some? ==>
          exists p :: 0 <= p < |m| && Related(w, m[p].key)
            && IsLastWithKey(cols, m[p].key, ResolveKey(m, w).value)
            && forall q :: 0 <= q < p ==> !Related(w, m[q].key))
  {
    var m := BuildNormMap(cols);
    BuildNormMapDescribes(cols);
    LookupKeysAreNormalForms(cols, w);
    FallbackIsFirstRelated(m, w);
  }

  /**
   * The wanted keys are used as given, without `_norm`: a key that is not in normal form
   * (say "Region") never matches exactly, and can only be found by containment.
   */
  lemma UnnormalisedKeyHasNoExactMatch(cols: seq<string>, w: string)
    requires !IsNormal(w)
    ensures !HasKey(BuildNormMap(cols), w)
    ensures forall i :: 0 <= i < |cols| ==> Norm(cols[i]) != w
  {
    LookupKeysAreNormalForms(cols, w);
  }

  /** A header whose normal form is empty (say `"_"`) is related to every key, so nothing resolves to None. */
  lemma EmptyNormalFormCatchesAll(cols: seq<string>, w: string, i: int)
    requires 0 <= i < |cols| && Norm(cols[i]) == ""
    ensures ResolveKey(BuildNormMap(cols), w).Some?
  {
    BuildNormMapDescribes(cols);
    var m := BuildNormMap(cols);
    var p := Find(m, "");
    assert Related(w, m[p].key) by {
      assert IsPrefix(m[p].key, w);
    }
    FirstCandidate(m, w);
  }

  /** The dict `resolve_columns(df, want)` returns, as a value. */
  function ColumnMap(cols: seq<string>, want: seq<string>): map<string, Option<string>> {
    map w | w in want :: ResolveKey(BuildNormMap(cols), w)
  }

  /** `resolve_columns(df, want)`: one entry per wanted key, as given, found exactly or by containment. */
  method ResolveColumns(cols: seq<string>, want: seq<string>) returns (out: map<string, Option<string>>)
    ensures out.Keys == set w | w in want
    ensures forall w :: w in want ==> out[w] == ResolveKey(BuildNormMap(cols), w)
    ensures out == ColumnMap(cols, want)
  {
    var normMap := BuildNormMap(cols);
    out := map[];
    for i := 0 to |want|
      invariant out.Keys == set w | w in want[..i]
      invariant forall w :: w in out ==> out[w] == ResolveKey(normMap, w)
    {
      var w := want[i];
      assert want[..i + 1] == want[..i] + [w];
      if HasKey(normMap, w) {
        out := out[w := Some(Get(normMap, w))];
        continue;
      }
      var candidates := Candidates(normMap, w);
      out := out[w := if |candidates| > 0 then Some(Get(normMap, candidates[0])) else None];
    }
    assert want[..|want|] == want;
    assert out == ColumnMap(cols, want);
  }

  /** Every key of the column map is a wanted key and every value a header or None. */
  lemma ColumnMapShape(cols: seq<string>, want: seq<string>)
    ensures ColumnMap(cols, want).Keys == set w | w in want
    ensures forall w :: w in ColumnMap(cols, want) && ColumnMap(cols, want)[w].Some? ==>
      ColumnMap(cols, want)[w].value in cols
  {
    forall w | w in ColumnMap(cols, want) && ColumnMap(cols, want)[w].Some? ensures ColumnMap(cols, want)[w].value in cols {
      ResolvedIsHeader(cols, w);
    }
  }
}
