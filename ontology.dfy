/**
 * The digit ontology store `PiOntology`: raw JSON entries are filtered and
 * normalised into `DigitEntry` records, grouped by digit in store order, and
 * queried per digit (optionally through the inversion d |-> 10 - d). A patch
 * layer kept apart from the base entries is merged in after them under one of
 * the policies `first`, `last` or `concat`.
 */
module Ontology {
  import opened Wrappers
  import opened Text
  import opened OrderedDict
  import PySlice
  import Numerology
  import IntSet

  // ---------------------------------------------------------------------------
  // Raw JSON and coercions
  // ---------------------------------------------------------------------------

  /** A parsed JSON value; an object lists its members in document order (a key is expected to appear once). */
  datatype Json =
    | JNull
    | JBool(b: bool)
    | JInt(i: int)
    | JFloat(f: real)
    | JString(s: string)
    | JArray(items: seq<Json>)
    | JObject(fields: Dict<Json>)

  /** The `OntologyError`s and `ValueError`s of the store. */
  datatype OntologyError =
    | InvalidJson
    | RootNotArray
    | NoUsableEntries
    | DigitOutOfRange(d: int)
    | UnknownMergePolicy(policy: string)

  /** `int(x)` on a float: truncation toward zero. */
  function Truncate(f: real): (r: int)
    ensures f >= 0.0 ==> r as real <= f < r as real + 1.0
    ensures f < 0.0 ==> r as real - 1.0 < f <= r as real
  {
    if f >= 0.0 then f.Floor else -((-f).Floor)
  }

  /**
   * The integer a JSON value stands for as an entry's `digit` or `index`: an int as
   * is, a bool as 0/1 (a Python `bool` is an `int`), a float truncated, a string
   * through `int(s)` (given as `parseInt`); `None`, lists and dicts make `int()` raise.
   */
  function CoerceInt(v: Json, parseInt: string -> Option<int>): (r: Option<int>)
    ensures v.JInt? ==> r == Some(v.i)
    ensures v.JBool? ==> r == Some(if v.b then 1 else 0)
    ensures v.JString? ==> r == parseInt(v.s)
    ensures v.JNull? || v.JArray? || v.JObject? ==> r.None?
  {
    match v
    case JInt(i) => Some(i)
    case JBool(b) => Some(if b then 1 else 0)
    case JFloat(f) => Some(Truncate(f))
    case JString(s) => parseInt(s)
    case _ => None
  }

  /** `str(v)`: a string stays itself; any other value is rendered by `show`. */
  function ToText(v: Json, show: Json -> string): string {
    if v.JString? then v.s else show(v)
  }

  // ---------------------------------------------------------------------------
  // Entries and their normalisation
  // ---------------------------------------------------------------------------

  /** `DigitEntry`: one usable raw entry. */
  datatype DigitEntry = DigitEntry(index: int, digit: int, analysis: Dict<string>)

  /** The keys of `fields` whose value is not `null`. */
  function NonNullKeys(fields: Dict<Json>): set<string> {
    set i | 0 <= i < |fields| && !fields[i].1.JNull? :: fields[i].0
  }

  /** The `clean_analysis` of `fields`: `null` values dropped, every other value turned to text. */
  function Cleaned(fields: Dict<Json>, show: Json -> string): (r: Dict<string>)
    ensures Keys(r) == NonNullKeys(fields)
    ensures Distinct(r)
  {
    if fields == [] then []
    else
      var init := fields[..|fields| - 1];
      var (k, v) := fields[|fields| - 1];
      var c := Cleaned(init, show);
      assert NonNullKeys(fields) == NonNullKeys(init) + (if v.JNull? then {} else {k}) by {
        assert forall i :: 0 <= i < |init| ==> init[i] == fields[i];
      }
      if v.JNull? then c else Put(c, k, ToText(v, show))
  }

  /** The loop of `_normalize_entries` that fills `clean_analysis`. */
  method CleanAnalysis(fields: Dict<Json>, show: Json -> string) returns (clean: Dict<string>)
    ensures clean == Cleaned(fields, show)
  {
    clean := [];
    var i := 0;
    while i < |fields|
      invariant 0 <= i <= |fields|
      invariant clean == Cleaned(fields[..i], show)
    {
      var (k, v) := fields[i];
      assert fields[..i + 1][..i] == fields[..i];
      if !v.JNull? {
        clean := Put(clean, k, ToText(v, show));
      }
      i := i + 1;
    }
    assert fields[..i] == fields;
  }

  /**
   * One raw value as `_normalize_entries` treats it: kept exactly when it is an
   * object with `digit` and `analysis`, the digit coerces to an int and the
   * analysis is an object. A missing or non-coercible `index` becomes -1.
   */
  function NormalizeOne(obj: Json, parseInt: string -> Option<int>, show: Json -> string): (r: Option<DigitEntry>)
    ensures r.Some? <==>
      && obj.JObject? && "digit" in Keys(obj.fields) && "analysis" in Keys(obj.fields)
      && CoerceInt(Get(obj.fields, "digit").value, parseInt).Some?
      && Get(obj.fields, "analysis").value.JObject?
    ensures r.Some? ==>
      && r.value.digit == CoerceInt(Get(obj.fields, "digit").value, parseInt).value
      && r.value.index == (if "index" in Keys(obj.fields) then CoerceInt(Get(obj.fields, "index").value, parseInt).GetOr(-1) else -1)
      && r.value.analysis == Cleaned(Get(obj.fields, "analysis").value.fields, show)
  {
    if !obj.JObject? then None
    else
      var f := obj.fields;
      if "digit" !in Keys(f) || "analysis" !in Keys(f) then None
      else
        var digit := CoerceInt(Get(f, "digit").value, parseInt);
        var index := if "index" in Keys(f) then CoerceInt(Get(f, "index").value, parseInt).GetOr(-1) else -1;
        var analysis := Get(f, "analysis").value;
        if digit.None? || !analysis.JObject? then None
        else Some(DigitEntry(index, digit.value, Cleaned(analysis.fields, show)))
  }

  /** The usable entries of a raw array, in array order. */
  function Usable(objs: seq<Json>, parseInt: string -> Option<int>, show: Json -> string): (r: seq<DigitEntry>)
    ensures |r| <= |objs|
  {
    if objs == [] then []
    else
      var last := NormalizeOne(objs[|objs| - 1], parseInt, show);
      Usable(objs[..|objs| - 1], parseInt, show) + (if last.Some? then [last.value] else [])
  }

  /** Filtering works element by element: the usable entries of `a + b` are those of `a`, then those of `b`. */
  lemma {:induction false} UsableAppend(a: seq<Json>, b: seq<Json>, parseInt: string -> Option<int>, show: Json -> string)
    ensures Usable(a + b, parseInt, show) == Usable(a, parseInt, show) + Usable(b, parseInt, show)
    decreases |b|
  {
    if b == [] {
      assert a + b == a;
    } else {
      assert (a + b)[..|a + b| - 1] == a + b[..|b| - 1];
      assert (a + b)[|a + b| - 1] == b[|b| - 1];
      UsableAppend(a, b[..|b| - 1], parseInt, show);
    }
  }

  /** Every usable entry is the normal form of some raw element. */
  lemma {:induction false} UsableFrom(objs: seq<Json>, parseInt: string -> Option<int>, show: Json -> string, j: int)
    requires 0 <= j < |Usable(objs, parseInt, show)|
    ensures exists i :: 0 <= i < |objs| && NormalizeOne(objs[i], parseInt, show) == Some(Usable(objs, parseInt, show)[j])
  {
    var init := objs[..|objs| - 1];
    var u := Usable(init, parseInt, show);
    if j < |u| {
      UsableFrom(init, parseInt, show, j);
      var i :| 0 <= i < |init| && NormalizeOne(init[i], parseInt, show) == Some(u[j]);
      assert objs[i] == init[i];
    } else {
      assert NormalizeOne(objs[|objs| - 1], parseInt, show) == Some(Usable(objs, parseInt, show)[j]);
    }
  }

  /**
   * `_normalize_entries`: the root must be an array, unusable elements are skipped,
   * and an array with no usable element is rejected.
   */
  method NormalizeEntries(data: Json, parseInt: string -> Option<int>, show: Json -> string)
    returns (r: Result<seq<DigitEntry>, OntologyError>)
    ensures !data.JArray? ==> r == Failure(RootNotArray)
    ensures data.JArray? && Usable(data.items, parseInt, show) == [] ==> r == Failure(NoUsableEntries)
    ensures data.JArray? && Usable(data.items, parseInt, show) != [] ==> r == Success(Usable(data.items, parseInt, show))
  {
    if !data.JArray? {
      return Failure(RootNotArray);
    }
    var objs := data.items;
    var entries: seq<DigitEntry> := [];
    var i := 0;
    while i < |objs|
      invariant 0 <= i <= |objs|
      invariant entries == Usable(objs[..i], parseInt, show)
    {
      assert objs[..i + 1][..i] == objs[..i];
      var obj := objs[i];
      if obj.JObject? && "digit" in Keys(obj.fields) && "analysis" in Keys(obj.fields) {
        var digit := CoerceInt(Get(obj.fields, "digit").value, parseInt);
        var index := if "index" in Keys(obj.fields) then CoerceInt(Get(obj.fields, "index").value, parseInt).GetOr(-1) else -1;
        var analysis := Get(obj.fields, "analysis").value;
        if digit.Some? && analysis.JObject? {
          var clean := CleanAnalysis(analysis.fields, show);
          entries := entries + [DigitEntry(index, digit.value, clean)];
        }
      }
      i := i + 1;
    }
    assert objs[..i] == objs;
    if entries == [] {
      return Failure(NoUsableEntries);
    }
    return Success(entries);
  }

  // ---------------------------------------------------------------------------
  // Grouping by digit
  // ---------------------------------------------------------------------------

  /** The entries whose digit is `d`, in store order. */
  function WithDigit(es: seq<DigitEntry>, d: int): (r: seq<DigitEntry>)
    ensures |r| <= |es|
    ensures forall i :: 0 <= i < |r| ==> r[i].digit == d
  {
    if es == [] then []
    else WithDigit(es[..|es| - 1], d) + (if es[|es| - 1].digit == d then [es[|es| - 1]] else [])
  }

  /** The digits that occur in `es`. */
  function DigitSet(es: seq<DigitEntry>): set<int> {
    set i | 0 <= i < |es| :: es[i].digit
  }

  /** An entry belongs to the group of `d` exactly when it is in the store and has digit `d`. */
  lemma {:induction false} WithDigitMembers(es: seq<DigitEntry>, d: int, e: DigitEntry)
    ensures e in WithDigit(es, d) <==> e in es && e.digit == d
  {
    if es != [] {
      WithDigitMembers(es[..|es| - 1], d, e);
      assert es == es[..|es| - 1] + [es[|es| - 1]];
    }
  }

  /** Grouping keeps the store order: the group of `a + b` is the group of `a`, then that of `b`. */
  lemma {:induction false} WithDigitAppend(a: seq<DigitEntry>, b: seq<DigitEntry>, d: int)
    ensures WithDigit(a + b, d) == WithDigit(a, d) + WithDigit(b, d)
    decreases |b|
  {
    if b == [] {
      assert a + b == a;
    } else {
      assert (a + b)[..|a + b| - 1] == a + b[..|b| - 1];
      assert (a + b)[|a + b| - 1] == b[|b| - 1];
      WithDigitAppend(a, b[..|b| - 1], d);
    }
  }

  /** A digit has a non-empty group exactly when it occurs. */
  lemma WithDigitNonEmpty(es: seq<DigitEntry>, d: int)
    ensures WithDigit(es, d) != [] <==> d in DigitSet(es)
  {
    if d in DigitSet(es) {
      var i :| 0 <= i < |es| && es[i].digit == d;
      WithDigitMembers(es, d, es[i]);
    } else if WithDigit(es, d) != [] {
      WithDigitMembers(es, d, WithDigit(es, d)[0]);
    }
  }

  /** `groups` is `_index_by_digit(es)`: one group per occurring digit, holding that digit's entries in order. */
  predicate IsIndexOf(groups: map<int, seq<DigitEntry>>, es: seq<DigitEntry>) {
    groups.Keys == DigitSet(es) && forall d :: d in groups ==> groups[d] == WithDigit(es, d)
  }

  /** `_index_by_digit`: `setdefault(e.digit, []).append(e)` for each entry in turn. */
  method IndexByDigit(es: seq<DigitEntry>) returns (groups: map<int, seq<DigitEntry>>)
    ensures IsIndexOf(groups, es)
  {
    groups := map[];
    var i := 0;
    while i < |es|
      invariant 0 <= i <= |es|
      invariant IsIndexOf(groups, es[..i])
    {
      var e := es[i];
      assert es[..i + 1] == es[..i] + [e];
      IsIndexOfSnoc(groups, es[..i], e);
      var group := if e.digit in groups then groups[e.digit] else [];
      groups := groups[e.digit := group + [e]];
      i := i + 1;
    }
    assert es[..i] == es;
  }

  /** Appending an entry to its digit's group (opening the group if need be) indexes one more entry. */
  lemma IsIndexOfSnoc(groups: map<int, seq<DigitEntry>>, pre: seq<DigitEntry>, e: DigitEntry)
    requires IsIndexOf(groups, pre)
    ensures IsIndexOf(groups[e.digit := (if e.digit in groups then groups[e.digit] else []) + [e]], pre + [e])
  {
    var next := pre + [e];
    assert next[..|pre|] == pre && next[|pre|] == e;
    assert DigitSet(next) == DigitSet(pre) + {e.digit} by {
      assert forall j :: 0 <= j < |pre| ==> next[j] == pre[j];
    }
    if e.digit !in groups {
      WithDigitNonEmpty(pre, e.digit);
    }
  }

  // ---------------------------------------------------------------------------
  // Merging
  // ---------------------------------------------------------------------------

  predicate ValidPolicy(policy: string) {
    policy == "first" || policy == "last" || policy == "concat"
  }

  /**
   * `_merge_key`: reject an unknown policy; insert an absent key as given; on a
   * present key keep the old value (`first`), overwrite it (`last`), or, unless
   * the two values agree once stripped, join them with " / " (`concat`).
   */
  function MergeKey(merged: Dict<string>, k: string, v: string, policy: string): (r: Result<Dict<string>, OntologyError>)
    ensures r.Failure? <==> !ValidPolicy(policy)
    ensures r.Failure? ==> r.error == UnknownMergePolicy(policy)
    ensures r.Success? ==> Keys(r.value) == Keys(merged) + {k} && Get(r.value, k).Some?
    ensures r.Success? ==> forall k' :: k' != k ==> Get(r.value, k') == Get(merged, k')
    ensures r.Success? && k !in Keys(merged) ==> Get(r.value, k) == Some(v)
    ensures r.Success? && k in Keys(merged) && policy == "first" ==> r.value == merged
    ensures r.Success? && policy == "last" ==> Get(r.value, k) == Some(v)
    ensures r.Success? && k in Keys(merged) && policy == "concat" ==>
      Get(r.value, k) == Some(if Strip(Get(merged, k).value) == Strip(v) then Get(merged, k).value
                              else Get(merged, k).value + " / " + v)
    ensures r.Success? && Distinct(merged) ==> Distinct(r.value)
  {
    if !ValidPolicy(policy) then Failure(UnknownMergePolicy(policy))
    else if k !in Keys(merged) then Success(Put(merged, k, v))
    else if policy == "first" then Success(merged)
    else if policy == "last" then Success(Put(merged, k, v))
    else
      var prev := Get(merged, k).value;
      if Strip(prev) == Strip(v) then Success(merged) else Success(Put(merged, k, prev + " / " + v))
  }

  /** `for k, v in items: merged = _merge_key(merged, k, v, ...)`, stopping at the first error. */
  function MergeItems(merged: Dict<string>, items: Dict<string>, policy: string): (r: Result<Dict<string>, OntologyError>)
    ensures r.Failure? <==> !ValidPolicy(policy) && items != []
    ensures r.Failure? ==> r.error == UnknownMergePolicy(policy)
    ensures r.Success? ==> Keys(r.value) == Keys(merged) + Keys(items)
    ensures r.Success? && Distinct(merged) ==> Distinct(r.value)
    decreases |items|
  {
    if items == [] then Success(merged)
    else
      var step := MergeKey(merged, items[0].0, items[0].1, policy);
      if step.Failure? then Failure(step.error) else MergeItems(step.value, items[1..], policy)
  }

  /** The keys of a list of analyses. */
  function KeysOfAll(analyses: seq<Dict<string>>): set<string> {
    if analyses == [] then {} else Keys(analyses[0]) + KeysOfAll(analyses[1..])
  }

  /** Every analysis of the list is empty. */
  predicate AllEmpty(analyses: seq<Dict<string>>) {
    forall i :: 0 <= i < |analyses| ==> analyses[i] == []
  }

  /** The entry loop of `get_analysis`: every analysis in turn, stopping at the first error. */
  function MergeAll(merged: Dict<string>, analyses: seq<Dict<string>>, policy: string): (r: Result<Dict<string>, OntologyError>)
    ensures r.Failure? <==> !ValidPolicy(policy) && !AllEmpty(analyses)
    ensures r.Failure? ==> r.error == UnknownMergePolicy(policy)
    ensures r.Success? ==> Keys(r.value) == Keys(merged) + KeysOfAll(analyses)
    ensures r.Success? && Distinct(merged) ==> Distinct(r.value)
    decreases |analyses|
  {
    if analyses == [] then Success(merged)
    else
      assert AllEmpty(analyses) <==> analyses[0] == [] && AllEmpty(analyses[1..]) by {
        assert forall i :: 1 <= i < |analyses| ==> analyses[i] == analyses[1..][i - 1];
      }
      var step := MergeItems(merged, analyses[0], policy);
      if step.Failure? then Failure(step.error) else MergeAll(step.value, analyses[1..], policy)
  }

  /** The analyses of a group of entries, in store order. */
  function AnalysesOf(es: seq<DigitEntry>): (r: seq<Dict<string>>)
    ensures |r| == |es| && forall i :: 0 <= i < |es| ==> r[i] == es[i].analysis
  {
    seq(|es|, i requires 0 <= i < |es| => es[i].analysis)
  }

  /** `get_analysis(merged=True)` on the entries of one digit and its patch: the entries first, the patch last. */
  function MergedAnalysis(es: seq<DigitEntry>, patch: Dict<string>, policy: string): Result<Dict<string>, OntologyError> {
    var base := MergeAll([], AnalysesOf(es), policy);
    if base.Failure? then base else MergeItems(base.value, patch, policy)
  }

  /** Under `last` merging is plain dict assignment, key after key. */
  lemma {:induction false} MergeItemsLast(merged: Dict<string>, items: Dict<string>)
    ensures MergeItems(merged, items, "last") == Success(PutAll(merged, items))
    decreases |items|
  {
    if items != [] {
      MergeItemsLast(Put(merged, items[0].0, items[0].1), items[1..]);
    }
  }

  /** Under `first` a key already merged keeps its value. */
  lemma {:induction false} MergeItemsFirst(merged: Dict<string>, items: Dict<string>, k: string)
    requires k in Keys(merged)
    ensures MergeItems(merged, items, "first").Success?
    ensures Get(MergeItems(merged, items, "first").value, k) == Get(merged, k)
    decreases |items|
  {
    if items != [] {
      var step := MergeKey(merged, items[0].0, items[0].1, "first");
      MergeItemsFirst(step.value, items[1..], k);
    }
  }

  /**
   * The merged view fails exactly for an unknown policy with at least one key to
   * merge; otherwise its keys are those of the entries' analyses and the patch.
   */
  lemma MergedAnalysisKeys(es: seq<DigitEntry>, patch: Dict<string>, policy: string)
    ensures MergedAnalysis(es, patch, policy).Failure? <==>
      !ValidPolicy(policy) && (!AllEmpty(AnalysesOf(es)) || patch != [])
    ensures MergedAnalysis(es, patch, policy).Success? ==>
      Keys(MergedAnalysis(es, patch, policy).value) == KeysOfAll(AnalysesOf(es)) + Keys(patch)
  {
    assert Keys<string>([]) == {};
  }

  /** A digit with no entries and no patch merges to `{}` whatever the policy. */
  lemma MergedAnalysisEmpty(policy: string)
    ensures MergedAnalysis([], [], policy) == Success([])
  {
  }

  /** Under `last` a patch value always wins for its key. */
  lemma MergedAnalysisPatchWins(es: seq<DigitEntry>, patch: Dict<string>, k: string)
    requires Distinct(patch) && k in Keys(patch)
    ensures MergedAnalysis(es, patch, "last").Success?
    ensures Get(MergedAnalysis(es, patch, "last").value, k) == Get(patch, k)
  {
    var base := MergeAll([], AnalysesOf(es), "last");
    MergeItemsLast(base.value, patch);
    PutAllGet(base.value, patch, k);
  }

  // ---------------------------------------------------------------------------
  // Per-digit queries on values
  // ---------------------------------------------------------------------------

  /** `invert_digit(digit) if inverted else digit`; an inversion out of 0..9 raises. */
  function ResolveDigit(digit: int, inverted: bool): (r: Result<int, OntologyError>)
    ensures r.Failure? <==> inverted && !(0 <= digit <= 9)
    ensures r.Failure? ==> r.error == DigitOutOfRange(digit)
    ensures r.Success? && !inverted ==> r.value == digit
    ensures r.Success? && inverted ==> r.value == (if digit == 0 then 0 else 10 - digit)
  {
    if !inverted then Success(digit)
    else
      var inv := Numerology.InvertDigit(digit);
      if inv.Failure? then Failure(DigitOutOfRange(digit)) else Success(inv.value)
  }

  /** `only_note`: the stripped, lower-cased keys of the analysis are `{"note"}` or nothing. */
  predicate OnlyNote(e: DigitEntry) {
    var keys := set k | k in Keys(e.analysis) :: Lower(Strip(k));
    keys == {"note"} || keys == {}
  }

  /** Missing (no entries) or incomplete (every entry holds only a note). */
  predicate MissingOrIncomplete(es: seq<DigitEntry>) {
    es == [] || forall i :: 0 <= i < |es| ==> OnlyNote(es[i])
  }

  /** `get_analysis(merged=False)`: the analyses in store order, then the patch when it is not empty. */
  function RawAnalyses(es: seq<DigitEntry>, patch: Dict<string>): (r: seq<Dict<string>>)
    ensures |r| == |es| + (if patch == [] then 0 else 1)
    ensures forall i :: 0 <= i < |es| ==> r[i] == es[i].analysis
    ensures patch != [] ==> r[|es|] == patch
  {
    AnalysesOf(es) + (if patch == [] then [] else [patch])
  }

  /** The key normalisation of `get_tradition_text`. */
  function NormKey(k: string): string {
    Lower(Strip(k))
  }

  /** The value of the first key of `d` whose `norm` is `t`. */
  function FirstWith<V>(d: Dict<V>, norm: string -> string, t: string): Option<V> {
    if d == [] then None
    else if norm(d[0].0) == t then Some(d[0].1)
    else FirstWith(d[1..], norm, t)
  }

  /** `FirstWith` finds a value exactly when some key matches, and it is the value of the first matching key. */
  lemma {:induction false} FirstWithSpec<V>(d: Dict<V>, norm: string -> string, t: string)
    ensures FirstWith(d, norm, t).Some? <==> exists i :: 0 <= i < |d| && norm(d[i].0) == t
    ensures FirstWith(d, norm, t).Some? ==>
      exists i :: 0 <= i < |d| && norm(d[i].0) == t && d[i].1 == FirstWith(d, norm, t).value &&
        forall j :: 0 <= j < i ==> norm(d[j].0) != t
  {
    if d != [] && norm(d[0].0) != t {
      var tail := d[1..];
      FirstWithSpec(tail, norm, t);
      assert forall i :: 1 <= i < |d| ==> d[i] == tail[i - 1];
      if FirstWith(tail, norm, t).Some? {
        var i :| 0 <= i < |tail| && norm(tail[i].0) == t && tail[i].1 == FirstWith(tail, norm, t).value &&
          forall j :: 0 <= j < i ==> norm(tail[j].0) != t;
        assert norm(d[i + 1].0) == t;
        forall j | 0 <= j < i + 1
          ensures norm(d[j].0) != t
        {
          if j > 0 {
            assert d[j] == tail[j - 1];
          }
        }
      } else {
        forall i | 0 <= i < |d|
          ensures norm(d[i].0) != t
        {
          if i > 0 {
            assert d[i] == tail[i - 1];
          }
        }
      }
    }
  }

  /** The value of the first key of `analysis` that matches `t` once stripped and lower-cased. */
  function FirstMatch(analysis: Dict<string>, t: string): Option<string> {
    FirstWith(analysis, NormKey, t)
  }

  /** `FirstMatch` finds a value exactly when some key normalises to `t`, and it is the value of the first such key. */
  lemma FirstMatchSpec(analysis: Dict<string>, t: string)
    ensures FirstMatch(analysis, t).Some? <==> exists i :: 0 <= i < |analysis| && NormKey(analysis[i].0) == t
    ensures FirstMatch(analysis, t).Some? ==>
      exists i :: 0 <= i < |analysis| && NormKey(analysis[i].0) == t && analysis[i].1 == FirstMatch(analysis, t).value &&
        forall j :: 0 <= j < i ==> NormKey(analysis[j].0) != t
  {
    FirstWithSpec(analysis, NormKey, t);
  }

  // ---------------------------------------------------------------------------
  // Excerpts and summaries
  // ---------------------------------------------------------------------------

  const Ellipsis: char := '\U{2026}'

  /** `_excerpt`: collapse whitespace runs and strip; cut to `n - 1` characters plus an ellipsis when longer than `n`. */
  function Excerpt(text: string, n: int): (r: string)
    ensures n >= 1 ==> |r| <= n
  {
    var t := Strip(CollapseSpaces(text));
    if |t| <= n then t else PySlice.Prefix(t, n - 1) + [Ellipsis]
  }

  /**
   * For a positive limit, the excerpt is the cleaned text itself exactly when that fits;
   * otherwise it has exactly `n` characters: the first `n - 1` of the cleaned text, then the ellipsis.
   */
  lemma ExcerptShape(text: string, n: int)
    ensures var t, r := Strip(CollapseSpaces(text)), Excerpt(text, n);
      n >= 1 ==> (r == t <==> |t| <= n)
    ensures var t, r := Strip(CollapseSpaces(text)), Excerpt(text, n);
      n >= 1 && |t| > n ==> |r| == n && r[..n - 1] == t[..n - 1] && r[n - 1] == Ellipsis
  {
    var t := Strip(CollapseSpaces(text));
    if n >= 1 && |t| > n {
      var cut := PySlice.Prefix(t, n - 1);
      assert Excerpt(text, n) == cut + [Ellipsis];
      assert (cut + [Ellipsis])[..n - 1] == cut;
    }
  }

  /** An excerpt has no whitespace but single plain spaces between words. */
  lemma ExcerptSingleSpaced(text: string, n: int)
    ensures SingleSpaced(Excerpt(text, n))
  {
    var t := Strip(CollapseSpaces(text));
    CleanedSingleSpaced(text);
    if |t| > n {
      CutSingleSpaced(t, n);
    }
  }

  /** Cutting a single-spaced text and appending the ellipsis keeps it single-spaced. */
  lemma CutSingleSpaced(t: string, n: int)
    requires SingleSpaced(t)
    ensures SingleSpaced(PySlice.Prefix(t, n - 1) + [Ellipsis])
  {
    var cut := PySlice.Prefix(t, n - 1);
    assert cut == t[0..|cut|];
    SingleSpacedSlice(t, 0, |cut|);
    SingleSpacedWithEllipsis(cut);
  }

  /** Collapsing and then stripping leaves a single-spaced text. */
  lemma CleanedSingleSpaced(text: string)
    ensures SingleSpaced(Strip(CollapseSpaces(text)))
  {
    var c := CollapseSpaces(text);
    var t := Strip(c);
    var k := |c| - |TrimStart(c)|;
    StripSlice(c);
    SingleSpacedSlice(c, k, k + |t|);
  }

  /** Appending the ellipsis, which is no whitespace, keeps a text single-spaced. */
  lemma SingleSpacedWithEllipsis(s: string)
    requires SingleSpaced(s)
    ensures SingleSpaced(s + [Ellipsis])
  {
    var r := s + [Ellipsis];
    assert forall i :: 0 <= i < |s| ==> r[i] == s[i];
  }

  /** Text that is already collapsed, stripped and short enough comes back unchanged. */
  lemma ExcerptShortUnchanged(text: string, n: int)
    requires SingleSpaced(text) && Strip(text) == text && |text| <= n
    ensures Excerpt(text, n) == text
  {
    CollapseSpacesFixesSingleSpaced(text);
  }

  /** The sort key of `summarize_digit`. */
  function SortKey(item: (string, string)): string {
    Lower(item.0)
  }

  predicate SortedByKey(items: seq<(string, string)>) {
    forall i :: 0 <= i < |items| - 1 ==> LexLe(SortKey(items[i]), SortKey(items[i + 1]))
  }

  /** Insert `x` after every element whose key is not greater than its own (which keeps equal keys in order). */
  function Insert(x: (string, string), s: seq<(string, string)>): (r: seq<(string, string)>)
    requires SortedByKey(s)
    ensures SortedByKey(r)
    ensures multiset(r) == multiset(s) + multiset{x}
    ensures |r| == |s| + 1
    ensures r != [] && (r[0] == x || (s != [] && r[0] == s[0]))
  {
    if s == [] then [x]
    else if !LexLe(SortKey(s[0]), SortKey(x)) then
      LexLeTotal(SortKey(s[0]), SortKey(x));
      [x] + s
    else
      assert SortedByKey(s[1..]) by {
        assert forall i :: 0 <= i < |s| - 1 ==> s[1..][i] == s[i + 1];
      }
      var rest := Insert(x, s[1..]);
      assert s == [s[0]] + s[1..];
      [s[0]] + rest
  }

  /** `sorted(items, key=lambda kv: kv[0].lower())`: insertion sort, stable. */
  function SortItems(items: seq<(string, string)>): (r: seq<(string, string)>)
    ensures SortedByKey(r)
    ensures multiset(r) == multiset(items)
    ensures |r| == |items|
  {
    if items == [] then []
    else
      assert items == items[..|items| - 1] + [items[|items| - 1]];
      Insert(items[|items| - 1], SortItems(items[..|items| - 1]))
  }

  /** Each value replaced by its excerpt of 220 characters. */
  function ExcerptItems(items: seq<(string, string)>): (r: seq<(string, string)>)
    ensures |r| == |items|
  {
    MapValues(items, v => Excerpt(v, 220))
  }

  /** The summary of a merged analysis: sorted by lower-cased key, the first `maxItems` as `items[:max_items]` takes them, each value as an excerpt. */
  function SummaryOf(analysis: Dict<string>, maxItems: int): seq<(string, string)> {
    ExcerptItems(PySlice.Prefix(SortItems(analysis), maxItems))
  }

  /**
   * A summary has at most `max(0, maxItems)` items and no more than the analysis has;
   * it is sorted by lower-cased key, every key comes from the analysis, and every
   * excerpt has at most 220 characters.
   */
  lemma SummaryBounds(analysis: Dict<string>, maxItems: int)
    ensures var r := SummaryOf(analysis, maxItems);
      && |r| <= |analysis|
      && (maxItems >= 0 ==> |r| <= maxItems)
      && SortedByKey(r)
      && (forall i :: 0 <= i < |r| ==> r[i].0 in Keys(analysis) && |r[i].1| <= 220)
  {
    var sorted := SortItems(analysis);
    var taken := PySlice.Prefix(sorted, maxItems);
    var r := ExcerptItems(taken);
    forall i | 0 <= i < |r|
      ensures r[i].0 in Keys(analysis) && |r[i].1| <= 220
    {
      MapValuesAt(taken, v => Excerpt(v, 220), i);
      assert taken[i] == sorted[i];
      assert sorted[i] in multiset(analysis);
      KeysHasMember(analysis, sorted[i]);
    }
    forall i | 0 <= i < |r| - 1
      ensures LexLe(SortKey(r[i]), SortKey(r[i + 1]))
    {
      MapValuesAt(taken, v => Excerpt(v, 220), i);
      MapValuesAt(taken, v => Excerpt(v, 220), i + 1);
      assert taken[i] == sorted[i] && taken[i + 1] == sorted[i + 1];
    }
  }

  lemma {:induction false} KeysHasMember(d: Dict<string>, p: (string, string))
    requires p in d
    ensures p.0 in Keys(d)
  {
    if d[0] != p {
      KeysHasMember(d[1..], p);
    }
  }

  // ---------------------------------------------------------------------------
  // Lenient JSON
  // ---------------------------------------------------------------------------

  /** `re.sub(r"\]\s*\[", ",", s)`: each `]`, whitespace run, `[` becomes one comma, scanning left to right. */
  function RepairConcatenated(s: string): (r: string)
    ensures |r| <= |s|
    decreases |s|
  {
    if s == [] then []
    else if s[0] == ']' then
      var rest := TrimStart(s[1..]);
      if rest != [] && rest[0] == '[' then [','] + RepairConcatenated(rest[1..])
      else [']'] + RepairConcatenated(s[1..])
    else [s[0]] + RepairConcatenated(s[1..])
  }

  /** Text without a closing bracket is left as it is. */
  lemma {:induction false} RepairWithoutBracket(s: string)
    requires forall i :: 0 <= i < |s| ==> s[i] != ']'
    ensures RepairConcatenated(s) == s
    decreases |s|
  {
    if s != [] {
      RepairWithoutBracket(s[1..]);
    }
  }

  /** The seam between two concatenated arrays becomes one comma, with or without whitespace inside it. */
  lemma RepairExample()
    ensures RepairConcatenated("][") == ","
    ensures RepairConcatenated("] [") == ","
  {
    assert !IsSpace('[') && IsSpace(' ');
    assert "["[1..] == [] && TrimStart("[") == "[";
    assert " ["[1..] == "[" && TrimStart(" [") == "[";
    assert "]["[1..] == "[";
    assert "] ["[1..] == " [";
  }

  /** `_parse_lenient_json` with the JSON parser given as `parse`: the text as is, else the repaired stripped text. */
  function ParseLenient(raw: string, parse: string -> Option<Json>): (r: Result<Json, OntologyError>)
    ensures parse(raw).Some? ==> r == Success(parse(raw).value)
    ensures parse(raw).None? ==> (r.Success? <==> parse(RepairConcatenated(Strip(raw))).Some?)
    ensures parse(raw).None? && r.Success? ==> r.value == parse(RepairConcatenated(Strip(raw))).value
    ensures r.Failure? ==> r.error == InvalidJson
  {
    var first := parse(raw);
    if first.Some? then Success(first.value)
    else
      var second := parse(RepairConcatenated(Strip(raw)));
      if second.Some? then Success(second.value) else Failure(InvalidJson)
  }

  /** Reading the store: lenient parsing, then `_normalize_entries` on the result. */
  function LoadEntries(raw: string, parse: string -> Option<Json>, parseInt: string -> Option<int>, show: Json -> string): (r: Result<seq<DigitEntry>, OntologyError>)
    ensures r.Success? ==> r.value != []
  {
    var data := ParseLenient(raw, parse);
    if data.Failure? then Failure(data.error)
    else if !data.value.JArray? then Failure(RootNotArray)
    else
      var es := Usable(data.value.items, parseInt, show);
      if es == [] then Failure(NoUsableEntries) else Success(es)
  }

  // ---------------------------------------------------------------------------
  // The store
  // ---------------------------------------------------------------------------

  /** `PiOntology`: the normalised entries, their grouping by digit, and the patch layer. */
  class PiOntology {
    var entries: seq<DigitEntry>
    var groups: map<int, seq<DigitEntry>>
    var patches: map<int, Dict<string>>

    /** The index is `_index_by_digit(entries)`, there is at least one entry, and every patch has distinct keys. */
    predicate Valid()
      reads this
    {
      entries != [] && IsIndexOf(groups, entries) && forall d :: d in patches ==> Distinct(patches[d])
    }

    /** The store over already normalised entries, with no patch. */
    constructor (es: seq<DigitEntry>)
      requires es != []
      ensures Valid() && entries == es && patches == map[]
    {
      entries := es;
      var index := IndexByDigit(es);
      groups := index;
      patches := map[];
    }

    /** `__init__` after the file has been read: parse leniently, normalise, index. */
    static method Open(raw: string, parse: string -> Option<Json>, parseInt: string -> Option<int>, show: Json -> string)
      returns (r: Result<PiOntology, OntologyError>)
      ensures r.Failure? <==> LoadEntries(raw, parse, parseInt, show).Failure?
      ensures r.Failure? ==> r.error == LoadEntries(raw, parse, parseInt, show).error
      ensures r.Success? ==> fresh(r.value) && r.value.Valid() && r.value.patches == map[]
      ensures r.Success? ==> r.value.entries == LoadEntries(raw, parse, parseInt, show).value
    {
      var data := ParseLenient(raw, parse);
      if data.Failure? {
        return Failure(data.error);
      }
      var es := NormalizeEntries(data.value, parseInt, show);
      if es.Failure? {
        return Failure(es.error);
      }
      var store := new PiOntology(es.value);
      return Success(store);
    }

    /** `_by_digit.get(d, [])`. */
    function EntriesFor(d: int): (r: seq<DigitEntry>)
      reads this
      requires Valid()
      ensures r == WithDigit(entries, d)
    {
      WithDigitNonEmpty(entries, d);
      if d in groups then groups[d] else []
    }

    /** `_patches.get(d, {})`. */
    function PatchFor(d: int): (r: Dict<string>)
      reads this
      requires Valid()
      ensures Distinct(r)
    {
      if d in patches then patches[d] else []
    }

    /** `digits_present`: the digits that have entries, in increasing order. */
    function DigitsPresent(): (r: seq<int>)
      reads this
      requires Valid()
      ensures forall i, j :: 0 <= i < j < |r| ==> r[i] < r[j]
      ensures forall d :: d in r <==> d in DigitSet(entries)
    {
      IntSet.Sorted(groups.Keys)
    }

    /** `get_entries`: the entries of the resolved digit, in store order. */
    function GetEntries(digit: int, inverted: bool): (r: Result<seq<DigitEntry>, OntologyError>)
      reads this
      requires Valid()
      ensures r.Failure? <==> ResolveDigit(digit, inverted).Failure?
      ensures r.Failure? ==> r.error == DigitOutOfRange(digit)
      ensures r.Success? ==> r.value == WithDigit(entries, ResolveDigit(digit, inverted).value)
    {
      var d := ResolveDigit(digit, inverted);
      if d.Failure? then Failure(d.error) else Success(EntriesFor(d.value))
    }

    /** `is_digit_missing_or_incomplete`: decided by the entries of the resolved digit alone; patches play no part. */
    function IsDigitMissingOrIncomplete(digit: int, inverted: bool): (r: Result<bool, OntologyError>)
      reads this
      requires Valid()
      ensures r.Failure? <==> ResolveDigit(digit, inverted).Failure?
      ensures r.Success? ==> (r.value <==> MissingOrIncomplete(WithDigit(entries, ResolveDigit(digit, inverted).value)))
    {
      var d := ResolveDigit(digit, inverted);
      if d.Failure? then Failure(d.error)
      else
        var es := EntriesFor(d.value);
        if es == [] then Success(true)
        else if forall i :: 0 <= i < |es| ==> OnlyNote(es[i]) then Success(true)
        else Success(false)
    }

    /** `get_analysis(merged=False)`: the raw analyses of the resolved digit, then its patch when not empty. */
    function GetAnalysisRaw(digit: int, inverted: bool): (r: Result<seq<Dict<string>>, OntologyError>)
      reads this
      requires Valid()
      ensures r.Failure? <==> ResolveDigit(digit, inverted).Failure?
      ensures r.Success? ==>
        r.value == RawAnalyses(WithDigit(entries, ResolveDigit(digit, inverted).value), PatchFor(ResolveDigit(digit, inverted).value))
    {
      var d := ResolveDigit(digit, inverted);
      if d.Failure? then Failure(d.error) else Success(RawAnalyses(EntriesFor(d.value), PatchFor(d.value)))
    }

    /** `get_analysis(merged=True)`: fold `_merge_key` over the entries' analyses, then over the patch. */
    method GetAnalysis(digit: int, inverted: bool, policy: string) returns (r: Result<Dict<string>, OntologyError>)
      requires Valid()
      ensures ResolveDigit(digit, inverted).Failure? ==> r == Failure(DigitOutOfRange(digit))
      ensures ResolveDigit(digit, inverted).Success? ==>
        r == MergedAnalysis(WithDigit(entries, ResolveDigit(digit, inverted).value), PatchFor(ResolveDigit(digit, inverted).value), policy)
    {
      var d := ResolveDigit(digit, inverted);
      if d.Failure? {
        return Failure(d.error);
      }
      var es := EntriesFor(d.value);
      var analyses := AnalysesOf(es);
      var merged: Dict<string> := [];
      var i := 0;
      while i < |es|
        invariant 0 <= i <= |es|
        invariant MergeAll(merged, analyses[i..], policy) == MergeAll([], analyses, policy)
      {
        assert analyses[i..][1..] == analyses[i + 1..];
        var step := MergeInto(merged, es[i].analysis, policy);
        if step.Failure? {
          return Failure(step.error);
        }
        merged := step.value;
        i := i + 1;
      }
      var patch := PatchFor(d.value);
      r := MergeInto(merged, patch, policy);
    }

    /** `get_tradition_text`: the first merged (`last`) tradition whose key matches, stripped and lower-cased, else `default`. */
    method GetTraditionText(digit: int, tradition: string, inverted: bool, default: Option<string>)
      returns (r: Result<Option<string>, OntologyError>)
      requires Valid()
      ensures r.Failure? <==> ResolveDigit(digit, inverted).Failure?
      ensures r.Success? ==>
        var d := ResolveDigit(digit, inverted).value;
        var merged := MergedAnalysis(WithDigit(entries, d), PatchFor(d), "last");
        merged.Success? &&
        r.value == (if FirstMatch(merged.value, NormKey(tradition)).Some? then FirstMatch(merged.value, NormKey(tradition)) else default)
    {
      var a := GetAnalysis(digit, inverted, "last");
      if a.Failure? {
        return Failure(a.error);
      }
      var analysis := a.value;
      var t := NormKey(tradition);
      var i := 0;
      while i < |analysis|
        invariant 0 <= i <= |analysis|
        invariant FirstMatch(analysis[i..], t) == FirstMatch(analysis, t)
      {
        assert analysis[i..][1..] == analysis[i + 1..];
        var (k, v) := analysis[i];
        if NormKey(k) == t {
          return Success(Some(v));
        }
        i := i + 1;
      }
      return Success(default);
    }

    /** `patch_digit`: assign the given traditions into the patch of the resolved digit, creating it if needed. */
    method PatchDigit(digit: int, patch: Dict<string>, inverted: bool) returns (r: Result<(), OntologyError>)
      requires Valid()
      modifies this
      ensures Valid()
      ensures r.Failure? <==> ResolveDigit(digit, inverted).Failure?
      ensures entries == old(entries) && groups == old(groups)
      ensures r.Failure? ==> patches == old(patches)
      ensures r.Success? ==>
        var d := ResolveDigit(digit, inverted).value;
        patches == old(patches)[d := PutAll(old(PatchFor(d)), patch)]
    {
      var d := ResolveDigit(digit, inverted);
      if d.Failure? {
        return Failure(d.error);
      }
      var base := if d.value in patches then patches[d.value] else [];
      var patched := AssignAll(base, patch);
      patches := patches[d.value := patched];
      return Success(());
    }

    /** `summarize_digit`: the sorted, sliced, excerpted items of the merged analysis. */
    method SummarizeDigit(digit: int, inverted: bool, maxItems: int, policy: string)
      returns (r: Result<seq<(string, string)>, OntologyError>)
      requires Valid()
      ensures ResolveDigit(digit, inverted).Failure? ==> r == Failure(DigitOutOfRange(digit))
      ensures ResolveDigit(digit, inverted).Success? ==>
        var d := ResolveDigit(digit, inverted).value;
        var merged := MergedAnalysis(WithDigit(entries, d), PatchFor(d), policy);
        r == if merged.Failure? then Failure(merged.error) else Success(SummaryOf(merged.value, maxItems))
    {
      var a := GetAnalysis(digit, inverted, policy);
      if a.Failure? {
        return Failure(a.error);
      }
      var taken := PySlice.Prefix(SortItems(a.value), maxItems);
      var out := ExcerptAll(taken);
      return Success(out);
    }
  }

  /** The loop of `summarize_digit` that turns each taken value into its excerpt. */
  method ExcerptAll(taken: seq<(string, string)>) returns (out: seq<(string, string)>)
    ensures out == ExcerptItems(taken)
  {
    out := [];
    var i := 0;
    while i < |taken|
      invariant 0 <= i <= |taken|
      invariant out == ExcerptItems(taken[..i])
    {
      MapValuesStep(taken, v => Excerpt(v, 220), i);
      out := out + [(taken[i].0, Excerpt(taken[i].1, 220))];
      i := i + 1;
    }
    assert taken[..i] == taken;
  }

  /** The loop of `patch_digit`: `d[k] = v` for each pair of `patch` in turn. */
  method AssignAll(base: Dict<string>, patch: Dict<string>) returns (cur: Dict<string>)
    ensures cur == PutAll(base, patch)
  {
    cur := base;
    var i := 0;
    while i < |patch|
      invariant 0 <= i <= |patch|
      invariant cur == PutAll(base, patch[..i])
    {
      PatchStep(base, patch, i);
      cur := Put(cur, patch[i].0, patch[i].1);
      i := i + 1;
    }
    assert patch[..i] == patch;
  }

  /** One more pair of a patch is one more assignment on the patched dict. */
  lemma PatchStep(base: Dict<string>, patch: Dict<string>, i: int)
    requires 0 <= i < |patch|
    ensures PutAll(base, patch[..i + 1]) == Put(PutAll(base, patch[..i]), patch[i].0, patch[i].1)
  {
    assert patch[..i + 1] == patch[..i] + [(patch[i].0, patch[i].1)];
    PutAllSnoc(base, patch[..i], patch[i].0, patch[i].1);
  }

  /** The inner loop of `get_analysis`: `_merge_key` for each pair of `items`, stopping at the first error. */
  method MergeInto(merged: Dict<string>, items: Dict<string>, policy: string) returns (r: Result<Dict<string>, OntologyError>)
    ensures r == MergeItems(merged, items, policy)
  {
    var cur := merged;
    var j := 0;
    while j < |items|
      invariant 0 <= j <= |items|
      invariant MergeItems(cur, items[j..], policy) == MergeItems(merged, items, policy)
    {
      assert items[j..][1..] == items[j + 1..];
      var step := MergeKey(cur, items[j].0, items[j].1, policy);
      if step.Failure? {
        return Failure(step.error);
      }
      cur := step.value;
      j := j + 1;
    }
    return Success(cur);
  }
}
