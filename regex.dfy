/** The parts of Python's runtime the analyzer leans on. `re.findall` for the fixed date,
    financial and bullet patterns, `str.lower` and `str.strip` are parameters of the model.
    The one risk-context pattern simple enough to pin down is modelled concretely. */
module Regex {
  import opened Wrappers
  import opened Strings

  /** The fixed patterns of app/llm_processor.py that the model leaves abstract. */
  datatype Pattern =
    | NumericDate       // \b\d{1,2}[-/]\d{1,2}[-/]\d{2,4}\b
    | AbbrevMonthDate   // captures the month word only
    | FullMonthDate     // captures the month name only
    | DayMonthYear      // \b\d{1,2}\s+\w+\s+\d{4}\b
    | Year              // \b\d{4}\b
    | RupeeAmount       // captures the amount after the rupee sign
    | InrAmount         // captures the amount before "INR"
    | Percentage        // captures "N%" or "N percent"
    | Bullet            // captures a bullet fragment up to its terminator

  /** `findAll(p, t)` is `re.findall(p, t, re.IGNORECASE)`: for these patterns, each with at
      most one capture group, a list of strings. */
  datatype Builtins = Builtins(
    findAll: (Pattern, string) -> seq<string>,
    lower: string -> string,
    strip: string -> string)

  predicate IsTerminator(c: char)
  {
    c == '.' || c == '!' || c == '?'
  }

  /** What the bullet pattern's capture group `[^.!?]*(…)[^.!?]*[.!?]` guarantees:
      it ends in a terminator and has none before it. */
  predicate BulletShaped(m: string)
  {
    && |m| > 0
    && IsTerminator(m[|m| - 1])
    && forall i :: 0 <= i < |m| - 1 ==> !IsTerminator(m[i])
  }

  predicate AllBulletShaped(ms: seq<string>)
  {
    forall i :: 0 <= i < |ms| ==> BulletShaped(ms[i])
  }

  /** A regex engine is sound for this model when its bullet captures have that shape. */
  ghost predicate Sound(b: Builtins)
  {
    forall t :: AllBulletShaped(b.findAll(Bullet, t))
  }

  type Runtime = b: Builtins | Sound(b)
    witness Builtins((p, t) => [], s => s, s => s)

  // ---------------------------------------------------------------------------
  // The risk context pattern  [^.]*kw[^.]*\.  searched in lowercased text.

  predicate PeriodFree(s: string)
  {
    forall i :: 0 <= i < |s| ==> s[i] != '.'
  }

  /** `m` is in the language of `[^.]*kw[^.]*\.` (for a keyword without '.'):
      a period-free body containing `kw`, then one period. */
  predicate IsContext(m: string, kw: string)
  {
    && |m| > 0
    && m[|m| - 1] == '.'
    && PeriodFree(m[..|m| - 1])
    && Contains(m[..|m| - 1], kw)
  }

  /** `t[p..e]` is a match of the context pattern. */
  predicate MatchAt(t: string, kw: string, p: int, e: int)
  {
    0 <= p <= e <= |t| && IsContext(t[p..e], kw)
  }

  /** The match `re.findall` lists first: it starts at the leftmost position where any
      match starts. */
  predicate LeftmostMatch(t: string, kw: string, p: int, e: int)
  {
    && MatchAt(t, kw, p, e)
    && forall p', e' :: 0 <= p' < p && p' <= e' <= |t| ==> !MatchAt(t, kw, p', e')
  }

  /** Index of the first '.' at or after `from`. */
  function NextPeriod(s: string, from: nat): (r: Option<nat>)
    requires from <= |s|
    ensures r.Some? ==> from <= r.value < |s| && s[r.value] == '.' && PeriodFree(s[from..r.value])
    ensures r.None? ==> PeriodFree(s[from..])
    decreases |s| - from
  {
    if from == |s| then None
    else if s[from] == '.' then Some(from)
    else
      var r := NextPeriod(s, from + 1);
      assert forall i :: from < i < |s| && (r.None? || i < r.value) ==> s[i] == s[from + 1..][i - from - 1];
      r
  }

  /** The first '.'-terminated segment at or after `start` whose body holds `kw`. */
  function ContextFrom(t: string, kw: string, start: nat): Option<string>
    requires start <= |t|
    decreases |t| - start
  {
    match NextPeriod(t, start)
    case None => None
    case Some(q) =>
      if Contains(t[start..q], kw) then Some(t[start..q + 1])
      else ContextFrom(t, kw, q + 1)
  }

  /** `re.findall(f"[^.]*{kw}[^.]*\.", t)[0]` when the list is non-empty. */
  function FirstContext(t: string, kw: string): Option<string>
  {
    ContextFrom(t, kw, 0)
  }

  /** Any match starting inside a segment ends at that segment's period, and its body
      lies within the segment's body. */
  lemma MatchInSegment(t: string, kw: string, start: nat, q: nat, p: nat, e: nat)
    requires start <= p <= q < |t| && t[q] == '.' && PeriodFree(t[start..q])
    requires MatchAt(t, kw, p, e)
    ensures e == q + 1
    ensures Contains(t[start..q], kw)
  {
    var m := t[p..e];
    assert m[|m| - 1] == t[e - 1];
    assert forall i :: start <= i < q ==> t[i] == t[start..q][i - start];
    assert forall i :: p <= i < e - 1 ==> t[i] == m[..|m| - 1][i - p];
    assert m[..|m| - 1] == t[p..q];
    ContainsWiden(t, kw, p, q, start, q);
  }

  /** No match starts before the end of `t` when no period remains. */
  lemma NoMatchWithoutPeriod(t: string, kw: string, start: nat, p: int, e: int)
    requires start <= |t| && start <= p && PeriodFree(t[start..])
    ensures !MatchAt(t, kw, p, e)
  {
  }

  lemma {:induction false} ContextFromCorrect(t: string, kw: string, start: nat)
    requires start <= |t|
    ensures ContextFrom(t, kw, start).None? ==>
      forall p, e :: start <= p ==> !MatchAt(t, kw, p, e)
    ensures ContextFrom(t, kw, start).Some? ==>
      exists p, e :: start <= p && MatchAt(t, kw, p, e) && ContextFrom(t, kw, start).value == t[p..e]
        && forall p', e' :: start <= p' < p ==> !MatchAt(t, kw, p', e')
    decreases |t| - start
  {
    match NextPeriod(t, start)
    case None =>
      forall p, e | start <= p ensures !MatchAt(t, kw, p, e) {
        NoMatchWithoutPeriod(t, kw, start, p, e);
      }
    case Some(q) =>
      // No match starts inside the first segment unless its body holds kw.
      if Contains(t[start..q], kw) {
        var m := t[start..q + 1];
        assert m[..|m| - 1] == t[start..q];
        assert MatchAt(t, kw, start, q + 1);
      } else {
        ContextFromCorrect(t, kw, q + 1);
        forall p', e' | start <= p' <= q ensures !MatchAt(t, kw, p', e') {
          if MatchAt(t, kw, p', e') {
            MatchInSegment(t, kw, start, q, p', e');
          }
        }
      }
  }

  /** `FirstContext` is the leftmost match of the context pattern, and is absent exactly
      when the pattern matches nowhere. */
  lemma FirstContextIsLeftmostMatch(t: string, kw: string)
    ensures FirstContext(t, kw).None? <==> forall p, e :: !MatchAt(t, kw, p, e)
    ensures FirstContext(t, kw).Some? ==>
      exists p, e :: LeftmostMatch(t, kw, p, e) && FirstContext(t, kw).value == t[p..e]
  {
    ContextFromCorrect(t, kw, 0);
    if FirstContext(t, kw).Some? {
      var p, e :| 0 <= p && MatchAt(t, kw, p, e) && FirstContext(t, kw).value == t[p..e]
        && forall p', e' :: 0 <= p' < p ==> !MatchAt(t, kw, p', e');
      assert LeftmostMatch(t, kw, p, e);
    }
  }

  /** A context found is '.'-terminated, period-free before that, and holds the keyword. */
  lemma FirstContextShape(t: string, kw: string)
    requires FirstContext(t, kw).Some?
    ensures IsContext(FirstContext(t, kw).value, kw)
  {
    FirstContextIsLeftmostMatch(t, kw);
  }
}
