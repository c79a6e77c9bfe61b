/** The keyword and pattern heuristics of `ContractAnalyzer` (app/llm_processor.py).
    Every extractor is a method that builds its list step by step, as the source does,
    and is proved against a specification: a function where the result is determined,
    a relation where `list(set(...))` leaves the order open. */
module ContractAnalyzer {
  import opened Wrappers
  import opened Strings
  import opened Sets
  import opened Regex

  // ===========================================================================
  // Shared: all matches of a list of patterns, pattern after pattern.

  /** `re.findall` of each pattern in turn, results concatenated in pattern order. */
  function MatchesOf(rt: Runtime, pats: seq<Pattern>, text: string): seq<string>
  {
    if |pats| == 0 then []
    else MatchesOf(rt, pats[..|pats| - 1], text) + rt.findAll(pats[|pats| - 1], text)
  }

  /** A string is among the matches exactly when one of the patterns matched it. */
  lemma {:induction false} MatchesOfMembers(rt: Runtime, pats: seq<Pattern>, text: string)
    ensures forall m :: m in MatchesOf(rt, pats, text) <==> exists p :: p in pats && m in rt.findAll(p, text)
  {
    if |pats| > 0 {
      var init, last := pats[..|pats| - 1], pats[|pats| - 1];
      MatchesOfMembers(rt, init, text);
      assert forall p :: p in pats <==> p in init || p == last;
    }
  }

  // ===========================================================================
  // Dates

  const DatePatterns: seq<Pattern> := [NumericDate, AbbrevMonthDate, FullMonthDate, DayMonthYear, Year]

  /** The matches longer than two characters, in their order. */
  function LongerThanTwo(ms: seq<string>): seq<string>
  {
    if |ms| == 0 then []
    else LongerThanTwo(ms[..|ms| - 1]) + (if |ms[|ms| - 1]| > 2 then [ms[|ms| - 1]] else [])
  }

  /** The filter keeps exactly the matches longer than two characters. */
  lemma {:induction false} LongerThanTwoMembers(ms: seq<string>)
    ensures forall m :: m in LongerThanTwo(ms) <==> m in ms && |m| > 2
  {
    if |ms| > 0 {
      var init := ms[..|ms| - 1];
      LongerThanTwoMembers(init);
      assert ms == init + [ms[|ms| - 1]];
    }
  }

  /** The list `dates` holds just before deduplication. */
  function DateCandidates(rt: Runtime, text: string): seq<string>
  {
    LongerThanTwo(MatchesOf(rt, DatePatterns, text))
  }

  /** What `extract_dates` may return: some order of the distinct candidates, cut to 10. */
  predicate IsDatesResult(rt: Runtime, text: string, dates: seq<string>)
  {
    IsDistinctPrefix(dates, DateCandidates(rt, text), 10)
  }

  method ExtractDates(rt: Runtime, text: string) returns (result: seq<string>)
    ensures IsDatesResult(rt, text, result)
  {
    var dates: seq<string> := [];
    var k := 0;
    while k < |DatePatterns|
      invariant 0 <= k <= |DatePatterns|
      invariant dates == LongerThanTwo(MatchesOf(rt, DatePatterns[..k], text))
    {
      var found := rt.findAll(DatePatterns[k], text);
      ghost var earlier := MatchesOf(rt, DatePatterns[..k], text);
      var m := 0;
      assert earlier + found[..m] == earlier;
      while m < |found|
        invariant 0 <= m <= |found|
        invariant dates == LongerThanTwo(earlier + found[..m])
      {
        assert (earlier + found[..m + 1])[..|earlier| + m] == earlier + found[..m];
        if |found[m]| > 2 {
          dates := dates + [found[m]];
        }
        m := m + 1;
      }
      assert DatePatterns[..k + 1][..k] == DatePatterns[..k];
      assert found[..m] == found;
      k := k + 1;
    }
    assert DatePatterns[..k] == DatePatterns;
    result := DistinctPrefix(dates, 10);
  }

  /** Each date is longer than two characters and is a match of one of the five patterns;
      there are no repeats and at most 10; with at most 10 distinct candidates all appear. */
  lemma DatesResultProperties(rt: Runtime, text: string, dates: seq<string>)
    requires IsDatesResult(rt, text, dates)
    ensures NoDuplicates(dates) && |dates| <= 10
    ensures forall i :: 0 <= i < |dates| ==>
      |dates[i]| > 2 && exists p :: p in DatePatterns && dates[i] in rt.findAll(p, text)
    ensures |Elements(DateCandidates(rt, text))| <= 10 ==>
      forall p, m :: p in DatePatterns && m in rt.findAll(p, text) && |m| > 2 ==> m in dates
  {
    var cands := DateCandidates(rt, text);
    MatchesOfMembers(rt, DatePatterns, text);
    LongerThanTwoMembers(MatchesOf(rt, DatePatterns, text));
    forall i | 0 <= i < |dates|
      ensures |dates[i]| > 2 && exists p :: p in DatePatterns && dates[i] in rt.findAll(p, text)
    {
      assert dates[i] in Elements(dates);
    }
    if |Elements(cands)| <= 10 {
      DistinctPrefixKeepsAll(dates, cands, 10);
    }
  }

  // ===========================================================================
  // Obligations

  const ObligationKeywords: seq<string> :=
    ["shall", "must", "will", "agree to", "responsible for", "obligated to", "required to",
     "ensure", "guarantee", "warrant", "covenant", "undertake"]

  /** A line is kept when its lowercase form holds an obligation keyword and its stripped
      form is longer than 10 and shorter than 500 characters. */
  predicate IsObligationLine(rt: Runtime, line: string)
  {
    ContainsAny(rt.lower(line), ObligationKeywords) && 10 < |rt.strip(line)| < 500
  }

  /** The stripped forms of the kept lines, in line order. */
  function ObligationLines(rt: Runtime, lines: seq<string>): seq<string>
  {
    if |lines| == 0 then []
    else
      var last := lines[|lines| - 1];
      ObligationLines(rt, lines[..|lines| - 1]) + (if IsObligationLine(rt, last) then [rt.strip(last)] else [])
  }

  /** The kept lines are exactly the stripped forms of the lines that qualify. */
  lemma {:induction false} ObligationLinesMembers(rt: Runtime, lines: seq<string>)
    ensures forall o :: o in ObligationLines(rt, lines) <==>
      exists l :: l in lines && IsObligationLine(rt, l) && o == rt.strip(l)
  {
    if |lines| > 0 {
      var init := lines[..|lines| - 1];
      ObligationLinesMembers(rt, init);
      assert lines == init + [lines[|lines| - 1]];
    }
  }

  /** The list `obligations` holds just before deduplication: kept lines, then bullet captures. */
  function ObligationCandidates(rt: Runtime, text: string): seq<string>
  {
    ObligationLines(rt, SplitLines(text)) + rt.findAll(Bullet, text)
  }

  /** What `extract_obligations` may return: some order of the distinct candidates, cut to 8. */
  predicate IsObligationsResult(rt: Runtime, text: string, obligations: seq<string>)
  {
    IsDistinctPrefix(obligations, ObligationCandidates(rt, text), 8)
  }

  method ExtractObligations(rt: Runtime, text: string) returns (result: seq<string>)
    ensures IsObligationsResult(rt, text, result)
  {
    var lines := SplitLines(text);
    var obligations: seq<string> := [];
    var i := 0;
    while i < |lines|
      invariant 0 <= i <= |lines|
      invariant obligations == ObligationLines(rt, lines[..i])
    {
      var line := lines[i];
      assert lines[..i + 1][..i] == lines[..i];
      if ContainsAny(rt.lower(line), ObligationKeywords) {
        var cleanLine := rt.strip(line);
        if 10 < |cleanLine| < 500 {
          obligations := obligations + [cleanLine];
        }
      }
      i := i + 1;
    }
    assert lines[..i] == lines;
    var bulletPoints := rt.findAll(Bullet, text);
    obligations := obligations + bulletPoints;
    result := DistinctPrefix(obligations, 8);
  }

  /** Each obligation is either a kept line (stripped, with a keyword, of length in (10, 500))
      or a bullet capture that ends in '.', '!' or '?'; no repeats, at most 8, and with at
      most 8 distinct candidates none is lost. */
  lemma ObligationsResultProperties(rt: Runtime, text: string, obligations: seq<string>)
    requires IsObligationsResult(rt, text, obligations)
    ensures NoDuplicates(obligations) && |obligations| <= 8
    ensures forall i :: 0 <= i < |obligations| ==>
      || (exists l :: l in SplitLines(text) && IsObligationLine(rt, l) && obligations[i] == rt.strip(l)
            && 10 < |obligations[i]| < 500)
      || (obligations[i] in rt.findAll(Bullet, text) && IsTerminator(obligations[i][|obligations[i]| - 1]))
    ensures |Elements(ObligationCandidates(rt, text))| <= 8 ==>
      forall o :: o in ObligationCandidates(rt, text) ==> o in obligations
  {
    var cands := ObligationCandidates(rt, text);
    var bullets := rt.findAll(Bullet, text);
    ObligationLinesMembers(rt, SplitLines(text));
    forall i | 0 <= i < |obligations|
      ensures || (exists l :: l in SplitLines(text) && IsObligationLine(rt, l) && obligations[i] == rt.strip(l)
                    && 10 < |obligations[i]| < 500)
              || (obligations[i] in bullets && IsTerminator(obligations[i][|obligations[i]| - 1]))
    {
      var o := obligations[i];
      assert o in Elements(obligations);
      if o in bullets {
        assert AllBulletShaped(rt.findAll(Bullet, text));
        var k :| 0 <= k < |bullets| && bullets[k] == o;
        assert BulletShaped(bullets[k]);
      }
    }
    if |Elements(cands)| <= 8 {
      DistinctPrefixKeepsAll(obligations, cands, 8);
    }
  }

  // ===========================================================================
  // Risks

  datatype Level = High | Medium | Low

  /** The dictionary key the source uses as the risk level. */
  function Label(level: Level): string
  {
    match level
    case High => "🔴 High Risk"
    case Medium => "🟡 Medium Risk"
    case Low => "🟢 Low Risk"
  }

  /** Position of a tier in the dictionary's iteration order. */
  function Rank(level: Level): nat
  {
    match level
    case High => 0
    case Medium => 1
    case Low => 2
  }

  function RiskKeywords(level: Level): seq<string>
  {
    match level
    case High => ["penalty", "termination", "liable", "indemnify", "breach", "damages", "lawsuit", "fraud", "negligence"]
    case Medium => ["warranty", "guarantee", "compliance", "audit", "inspection", "default", "confidential"]
    case Low => ["notice", "amendment", "renewal", "governing law"]
  }

  const TierOrder: seq<Level> := [High, Medium, Low]

  datatype RiskFinding = RiskFinding(risk: string, level: Level, description: string)

  /** `k` is the first keyword of `kws`, in list order, that occurs in `low`. */
  predicate IsFirstHit(kws: seq<string>, low: string, k: string)
  {
    exists j :: 0 <= j < |kws| && kws[j] == k && Contains(low, k)
      && forall i :: 0 <= i < j ==> !Contains(low, kws[i])
  }

  /** The keyword the inner loop stops at: the `break` leaves the tier after it. */
  function FirstHit(kws: seq<string>, low: string): (r: Option<string>)
    ensures r.None? <==> !ContainsAny(low, kws)
    ensures r.Some? ==> IsFirstHit(kws, low, r.value)
  {
    if |kws| == 0 then None
    else if Contains(low, kws[0]) then Some(kws[0])
    else
      var r := FirstHit(kws[1..], low);
      assert forall w :: w in kws ==> w == kws[0] || w in kws[1..];
      if r.Some? then
        assert IsFirstHit(kws[1..], low, r.value);
        var j :| 0 <= j < |kws[1..]| && kws[1..][j] == r.value && Contains(low, r.value)
          && forall i :: 0 <= i < j ==> !Contains(low, kws[1..][i]);
        assert forall i :: 0 < i <= j ==> kws[i] == kws[1..][i - 1];
        assert kws[j + 1] == r.value;
        r
      else r
  }

  const ContextLimit := 150

  /** The description of a finding: the first sentence holding the keyword, stripped and
      cut to 150 characters, with "..." appended, or a fixed sentence naming the keyword. */
  function Describe(rt: Runtime, low: string, kw: string): (d: string)
    ensures FirstContext(low, kw).Some? ==>
      && |d| - 3 == Min(ContextLimit, |rt.strip(FirstContext(low, kw).value)|)
      && |d| <= ContextLimit + 3
      && d[|d| - 3..] == "..."
      && d[..|d| - 3] <= rt.strip(FirstContext(low, kw).value)
    ensures FirstContext(low, kw).None? ==> d == "Found '" + kw + "' in contract"
  {
    match FirstContext(low, kw)
    case Some(context) =>
      var snippet := Take(rt.strip(context), ContextLimit);
      var d := snippet + "...";
      assert d[..|d| - 3] == snippet;
      d
    case None => "Found '" + kw + "' in contract"
  }

  /** The finding a tier contributes: at most one, for its first keyword present. */
  function TierFinding(rt: Runtime, low: string, level: Level): seq<RiskFinding>
  {
    match FirstHit(RiskKeywords(level), low)
    case None => []
    case Some(k) => [RiskFinding(k, level, Describe(rt, low, k))]
  }

  /** The findings of the tiers `levels`, tier after tier. */
  function Findings(rt: Runtime, low: string, levels: seq<Level>): (r: seq<RiskFinding>)
    ensures |r| <= |levels|
    ensures forall f :: f in r ==> f.level in levels
  {
    if |levels| == 0 then []
    else Findings(rt, low, levels[..|levels| - 1]) + TierFinding(rt, low, levels[|levels| - 1])
  }

  /** What `extract_risks` returns for the lowercased text `low`. */
  function Risks(rt: Runtime, low: string): seq<RiskFinding>
  {
    Findings(rt, low, TierOrder)
  }

  method ExtractRisks(rt: Runtime, text: string) returns (result: seq<RiskFinding>)
    ensures result == Risks(rt, rt.lower(text))
  {
    var risks: seq<RiskFinding> := [];
    var low := rt.lower(text);
    var t := 0;
    while t < |TierOrder|
      invariant 0 <= t <= |TierOrder|
      invariant risks == Findings(rt, low, TierOrder[..t])
    {
      var level := TierOrder[t];
      var keywords := RiskKeywords(level);
      ghost var before := risks;
      var j := 0;
      while j < |keywords|
        invariant 0 <= j <= |keywords|
        invariant risks == before
        invariant FirstHit(keywords, low) == FirstHit(keywords[j..], low)
      {
        var keyword := keywords[j];
        FirstHitStep(keywords, low, j);
        if Contains(low, keyword) {
          var context := Describe(rt, low, keyword);
          risks := risks + [RiskFinding(keyword, level, context)];
          break;
        }
        j := j + 1;
      }
      assert risks == before + TierFinding(rt, low, level);
      FindingsStep(rt, low, TierOrder, t);
      t := t + 1;
    }
    assert TierOrder[..t] == TierOrder;
    result := Take(risks, 8);
  }

  /** One step of the inner scan: the keyword at `j` is the hit if present, else the
      scan goes on from `j + 1`. */
  lemma FirstHitStep(kws: seq<string>, low: string, j: nat)
    requires j < |kws|
    ensures FirstHit(kws[j..], low) ==
      if Contains(low, kws[j]) then Some(kws[j]) else FirstHit(kws[j + 1..], low)
  {
  }

  /** One step of the outer scan: the tier at `t` appends its finding. */
  lemma FindingsStep(rt: Runtime, low: string, levels: seq<Level>, t: nat)
    requires t < |levels|
    ensures Findings(rt, low, levels[..t + 1]) == Findings(rt, low, levels[..t]) + TierFinding(rt, low, levels[t])
  {
    assert levels[..t + 1][..t] == levels[..t];
  }

  lemma RisksByTier(rt: Runtime, low: string)
    ensures Risks(rt, low) == TierFinding(rt, low, High) + TierFinding(rt, low, Medium) + TierFinding(rt, low, Low)
  {
    var h, m, l := TierFinding(rt, low, High), TierFinding(rt, low, Medium), TierFinding(rt, low, Low);
    assert TierOrder[..2] == [High, Medium];
    assert [High, Medium][..1] == [High];
    assert [High][..0] == [];
    assert Findings(rt, low, [High]) == h;
    assert Findings(rt, low, [High, Medium]) == h + m;
    assert Findings(rt, low, TierOrder) == Findings(rt, low, [High, Medium]) + l;
  }

  /** A tier contributes a finding exactly when one of its keywords occurs, and that
      finding is for the first such keyword, under the tier's level. */
  lemma TierFindingShape(rt: Runtime, low: string, level: Level)
    ensures |TierFinding(rt, low, level)| <= 1
    ensures |TierFinding(rt, low, level)| == 1 <==> ContainsAny(low, RiskKeywords(level))
    ensures forall f :: f in TierFinding(rt, low, level) ==>
      && f.level == level
      && IsFirstHit(RiskKeywords(level), low, f.risk)
      && f.description == Describe(rt, low, f.risk)
  {
  }

  /** Tiers visited in increasing rank give findings in increasing rank. */
  lemma {:induction false} FindingsOrdered(rt: Runtime, low: string, levels: seq<Level>)
    requires forall i, j :: 0 <= i < j < |levels| ==> Rank(levels[i]) < Rank(levels[j])
    ensures forall i, j :: 0 <= i < j < |Findings(rt, low, levels)| ==>
      Rank(Findings(rt, low, levels)[i].level) < Rank(Findings(rt, low, levels)[j].level)
  {
    if |levels| > 0 {
      var init, last := levels[..|levels| - 1], levels[|levels| - 1];
      FindingsOrdered(rt, low, init);
      var r0, t := Findings(rt, low, init), TierFinding(rt, low, last);
      var r: seq<RiskFinding> := r0 + t;
      assert Findings(rt, low, levels) == r;
      forall i, j | 0 <= i < j < |r|
        ensures Rank(r[i].level) < Rank(r[j].level)
      {
        if j >= |r0| {
          assert r[j] == t[0] && t[0].level == last;
          assert r[i] == r0[i] && r0[i] in r0;
          assert r0[i].level in init;
        } else {
          assert r[i] == r0[i] && r[j] == r0[j];
        }
      }
    }
  }

  /** At most one finding per tier, in tier order (High, Medium, Low), so at most three:
      the cut to 8 never drops one. */
  lemma RisksInTierOrder(rt: Runtime, low: string)
    ensures |Risks(rt, low)| <= 3 && Take(Risks(rt, low), 8) == Risks(rt, low)
    ensures forall i, j :: 0 <= i < j < |Risks(rt, low)| ==>
      Rank(Risks(rt, low)[i].level) < Rank(Risks(rt, low)[j].level)
  {
    FindingsOrdered(rt, low, TierOrder);
  }

  /** Every finding is the finding of its own tier. */
  lemma {:induction false} FindingOfItsTier(rt: Runtime, low: string, levels: seq<Level>, i: nat)
    requires i < |Findings(rt, low, levels)|
    ensures Findings(rt, low, levels)[i] in TierFinding(rt, low, Findings(rt, low, levels)[i].level)
  {
    var init, last := levels[..|levels| - 1], levels[|levels| - 1];
    var r0, t := Findings(rt, low, init), TierFinding(rt, low, last);
    var r: seq<RiskFinding> := r0 + t;
    assert Findings(rt, low, levels) == r;
    if i < |r0| {
      FindingOfItsTier(rt, low, init, i);
      assert r[i] == r0[i];
    } else {
      TierFindingLevel(rt, low, last);
      assert r[i] == t[i - |r0|] && r[i] in t;
    }
  }

  /** Only the level clause of `TierFindingShape`: the induction in `FindingOfItsTier`
      needs nothing more, and the full shape there makes the proof much costlier. */
  lemma TierFindingLevel(rt: Runtime, low: string, level: Level)
    ensures forall f :: f in TierFinding(rt, low, level) ==> f.level == level
  {
  }

  /** A tier has a finding exactly when one of its keywords occurs in the lowercased text. */
  lemma RiskTierPresent(rt: Runtime, low: string, level: Level)
    ensures (exists i :: 0 <= i < |Risks(rt, low)| && Risks(rt, low)[i].level == level)
      <==> ContainsAny(low, RiskKeywords(level))
  {
    var r := Risks(rt, low);
    TierFindingShape(rt, low, level);
    if ContainsAny(low, RiskKeywords(level)) {
      RisksByTier(rt, low);
      var h, m := TierFinding(rt, low, High), TierFinding(rt, low, Medium);
      var own := TierFinding(rt, low, level);
      var i := match level case High => 0 case Medium => |h| case Low => |h| + |m|;
      assert r[i] == own[0];
    }
    forall i | 0 <= i < |r| && r[i].level == level
      ensures ContainsAny(low, RiskKeywords(level))
    {
      FindingOfItsTier(rt, low, TierOrder, i);
    }
  }

  /** Each finding names the first keyword of its tier's list, in list order, that occurs
      in the lowercased text, and carries that keyword's description. */
  lemma RiskFindingIsFirstHit(rt: Runtime, low: string, i: nat)
    requires i < |Risks(rt, low)|
    ensures IsFirstHit(RiskKeywords(Risks(rt, low)[i].level), low, Risks(rt, low)[i].risk)
    ensures Risks(rt, low)[i].description == Describe(rt, low, Risks(rt, low)[i].risk)
  {
    FindingOfItsTier(rt, low, TierOrder, i);
    TierFindingShape(rt, low, Risks(rt, low)[i].level);
  }

  /** Text without any risk keyword has no findings, and only such text. */
  lemma NoRiskKeywordsNoRisks(rt: Runtime, low: string)
    ensures Risks(rt, low) == [] <==>
      !ContainsAny(low, RiskKeywords(High)) && !ContainsAny(low, RiskKeywords(Medium))
        && !ContainsAny(low, RiskKeywords(Low))
  {
    RisksByTier(rt, low);
  }

  // ===========================================================================
  // Financial terms

  const FinancialPatterns: seq<Pattern> := [RupeeAmount, InrAmount, Percentage]

  /** What `extract_financial_terms` returns: the first five matches of the three patterns,
      pattern after pattern, duplicates kept. */
  function FinancialTerms(rt: Runtime, text: string): (r: seq<string>)
    ensures var all := rt.findAll(RupeeAmount, text) + rt.findAll(InrAmount, text) + rt.findAll(Percentage, text);
      |r| == Min(5, |all|) && r == all[..|r|]
  {
    var a, b, c := rt.findAll(RupeeAmount, text), rt.findAll(InrAmount, text), rt.findAll(Percentage, text);
    assert FinancialPatterns[..2] == [RupeeAmount, InrAmount];
    assert [RupeeAmount, InrAmount][..1] == [RupeeAmount];
    assert [RupeeAmount][..0] == [];
    assert MatchesOf(rt, [RupeeAmount], text) == a;
    assert MatchesOf(rt, [RupeeAmount, InrAmount], text) == a + b;
    assert MatchesOf(rt, FinancialPatterns, text) == a + b + c;
    Take(MatchesOf(rt, FinancialPatterns, text), 5)
  }

  method ExtractFinancialTerms(rt: Runtime, text: string) returns (result: seq<string>)
    ensures result == FinancialTerms(rt, text)
  {
    var financials: seq<string> := [];
    var k := 0;
    while k < |FinancialPatterns|
      invariant 0 <= k <= |FinancialPatterns|
      invariant financials == MatchesOf(rt, FinancialPatterns[..k], text)
    {
      var found := rt.findAll(FinancialPatterns[k], text);
      financials := financials + found;
      assert FinancialPatterns[..k + 1][..k] == FinancialPatterns[..k];
      k := k + 1;
    }
    assert FinancialPatterns[..k] == FinancialPatterns;
    result := Take(financials, 5);
  }

  // ===========================================================================
  // Summary

  const PaymentWords: seq<string> := ["payment", "fee", "price", "retainer"]
  const ConfidentialityWords: seq<string> := ["confidential", "proprietary", "non-disclosure"]
  const TerminationWords: seq<string> := ["termination", "terminate", "cancel"]
  const LiabilityWords: seq<string> := ["liable", "liability", "responsible", "damages"]
  const ServiceWords: seq<string> := ["service", "deliverable", "obligation", "duty"]

  const FinancialTermsPrefix := "• Financial terms: "
  const PaymentSpecified := "• Payment terms specified"
  const ConfidentialityBullet := "• Confidentiality obligations included"
  const TerminationBullet := "• Termination clauses defined"
  const LiabilityBullet := "• Liability and risk allocation"
  const ServiceBullet := "• Service scope and deliverables outlined"
  const KeyDatesPrefix := "• Key dates: "
  const SummaryTitle := "Contract Summary:"
  /** The one sentence of app/llm_processor.py:134. It is written as two literals because
      the verifier reads characters only out of short literals, and `AssembleFallback`
      needs the first one. */
  const Fallback := "Standard legal agreement " + "with general terms and conditions."

  /** The payment bullet: the financial terms joined by ", ", or a fixed line when none. */
  function PaymentBullet(financials: seq<string>): string
  {
    if |financials| > 0 then FinancialTermsPrefix + Join(financials, ", ") else PaymentSpecified
  }

  /** Which of the five topic triggers fire on the lowercased text. */
  datatype Triggers = Triggers(payment: bool, confidentiality: bool, termination: bool,
                               liability: bool, service: bool)
  {
    predicate Any()
    {
      payment || confidentiality || termination || liability || service
    }
  }

  function TriggersOf(low: string): Triggers
  {
    Triggers(ContainsAny(low, PaymentWords), ContainsAny(low, ConfidentialityWords),
             ContainsAny(low, TerminationWords), ContainsAny(low, LiabilityWords),
             ContainsAny(low, ServiceWords))
  }

  /** The topic bullets in their fixed order: payment, confidentiality, termination,
      liability, service. */
  function TopicBullets(fired: Triggers, financials: seq<string>): seq<string>
  {
    (if fired.payment then [PaymentBullet(financials)] else [])
    + (if fired.confidentiality then [ConfidentialityBullet] else [])
    + (if fired.termination then [TerminationBullet] else [])
    + (if fired.liability then [LiabilityBullet] else [])
    + (if fired.service then [ServiceBullet] else [])
  }

  /** At most five topic bullets, none exactly when no trigger fires, the payment bullet
      first when payment words occur, and each other bullet present exactly when its
      trigger fires. */
  lemma TopicBulletsShape(fired: Triggers, financials: seq<string>)
    ensures |TopicBullets(fired, financials)| <= 5
    ensures TopicBullets(fired, financials) == [] <==> !fired.Any()
    ensures fired.payment <==>
      |TopicBullets(fired, financials)| > 0 && TopicBullets(fired, financials)[0] == PaymentBullet(financials)
    ensures ConfidentialityBullet in TopicBullets(fired, financials) <==> fired.confidentiality
    ensures TerminationBullet in TopicBullets(fired, financials) <==> fired.termination
    ensures LiabilityBullet in TopicBullets(fired, financials) <==> fired.liability
    ensures ServiceBullet in TopicBullets(fired, financials) <==> fired.service
  {
    var pay := PaymentBullet(financials);
    assert pay[2] == 'F' || pay[2] == 'P';
    assert ConfidentialityBullet[2] == 'C' && TerminationBullet[2] == 'T';
    assert LiabilityBullet[2] == 'L' && ServiceBullet[2] == 'S';
  }

  /** The key-dates bullet, listing at most the first three dates; none without dates. */
  function KeyDatesBullet(dates: seq<string>): (r: seq<string>)
    ensures r == [] <==> dates == []
    ensures dates != [] ==>
      exists shown :: shown <= dates && |shown| == Min(3, |dates|) && r == [KeyDatesPrefix + Join(shown, ", ")]
  {
    if |dates| > 0 then [KeyDatesPrefix + Join(Take(dates, 3), ", ")] else []
  }

  /** The summary text: the bullets under a title line, or the fallback sentence. */
  function Assemble(parts: seq<string>): string
  {
    if |parts| > 0 then SummaryTitle + "\n" + Join(parts, "\n") else Fallback
  }

  /** The fallback sentence is produced exactly when there are no bullets. */
  lemma AssembleFallback(parts: seq<string>)
    ensures Assemble(parts) == Fallback <==> parts == []
  {
    if parts != [] {
      var title := SummaryTitle + "\n";
      assert title[0] == 'C' && Fallback[0] == 'S';
      assert Assemble(parts) == title + Join(parts, "\n");
      assert Assemble(parts)[0] == 'C';
    }
  }

  /** A summary with bullets reads back, line by line, as the title and then one bullet
      per line, when no bullet holds a newline itself. */
  lemma AssembleLines(parts: seq<string>)
    requires parts != []
    requires forall i :: 0 <= i < |parts| ==> '\n' !in parts[i]
    ensures SplitLines(Assemble(parts)) == [SummaryTitle] + parts
  {
    var all := [SummaryTitle] + parts;
    assert all[1..] == parts;
    assert Join(all, "\n") == Assemble(parts);
    SplitJoinLines(all);
  }

  /** What `generate_summary` may return, given the order `extract_dates` picks. */
  ghost predicate IsSummaryResult(rt: Runtime, text: string, summary: string)
  {
    exists dates :: IsDatesResult(rt, text, dates)
      && summary == Assemble(TopicBullets(TriggersOf(rt.lower(text)), FinancialTerms(rt, text)) + KeyDatesBullet(dates))
  }

  method GenerateSummary(rt: Runtime, text: string) returns (summary: string)
    ensures IsSummaryResult(rt, text, summary)
    ensures summary == Fallback <==> !TriggersOf(rt.lower(text)).Any() && DateCandidates(rt, text) == []
  {
    var low := rt.lower(text);
    var fired := TriggersOf(low);
    ghost var fin := FinancialTerms(rt, text);
    var summaryParts: seq<string> := [];
    if fired.payment {
      var financials := ExtractFinancialTerms(rt, text);
      if |financials| > 0 {
        summaryParts := summaryParts + [FinancialTermsPrefix + Join(financials, ", ")];
      } else {
        summaryParts := summaryParts + [PaymentSpecified];
      }
    }
    ghost var p1 := summaryParts;
    assert p1 == if fired.payment then [PaymentBullet(fin)] else [];
    if fired.confidentiality {
      summaryParts := summaryParts + [ConfidentialityBullet];
    }
    ghost var p2 := summaryParts;
    assert p2 == p1 + if fired.confidentiality then [ConfidentialityBullet] else [];
    if fired.termination {
      summaryParts := summaryParts + [TerminationBullet];
    }
    ghost var p3 := summaryParts;
    assert p3 == p2 + if fired.termination then [TerminationBullet] else [];
    if fired.liability {
      summaryParts := summaryParts + [LiabilityBullet];
    }
    ghost var p4 := summaryParts;
    assert p4 == p3 + if fired.liability then [LiabilityBullet] else [];
    if fired.service {
      summaryParts := summaryParts + [ServiceBullet];
    }
    ghost var topics := summaryParts;
    assert topics == p4 + if fired.service then [ServiceBullet] else [];
    assert topics == TopicBullets(fired, fin);
    var dates := ExtractDates(rt, text);
    ghost var keyDates := KeyDatesBullet(dates);
    if |dates| > 0 {
      summaryParts := summaryParts + [KeyDatesPrefix + Join(Take(dates, 3), ", ")];
      assert summaryParts == topics + keyDates;
    } else {
      assert keyDates == [];
      assert summaryParts == topics + keyDates;
    }
    if |summaryParts| > 0 {
      summary := SummaryTitle + "\n" + Join(summaryParts, "\n");
    } else {
      summary := Fallback;
    }
    assert summary == Assemble(topics + keyDates);
    SummaryOutcome(rt, text, dates, summary);
  }

  /** The summary assembled from the triggers of `text` and a dates result is a summary
      result, and is the fallback exactly when nothing fired and there are no dates. */
  lemma SummaryOutcome(rt: Runtime, text: string, dates: seq<string>, summary: string)
    requires IsDatesResult(rt, text, dates)
    requires summary == Assemble(TopicBullets(TriggersOf(rt.lower(text)), FinancialTerms(rt, text)) + KeyDatesBullet(dates))
    ensures IsSummaryResult(rt, text, summary)
    ensures summary == Fallback <==> !TriggersOf(rt.lower(text)).Any() && DateCandidates(rt, text) == []
  {
    var parts := TopicBullets(TriggersOf(rt.lower(text)), FinancialTerms(rt, text)) + KeyDatesBullet(dates);
    AssembleFallback(parts);
    TopicBulletsShape(TriggersOf(rt.lower(text)), FinancialTerms(rt, text));
    DistinctPrefixEmpty(dates, DateCandidates(rt, text), 10);
  }

  // ===========================================================================
  // The orchestrator

  datatype Status = Complete | Error

  function StatusLabel(status: Status): string
  {
    match status
    case Complete => "✅ Analysis Complete"
    case Error => "❌ Error"
  }

  datatype AnalysisResult = AnalysisResult(
    dates: seq<string>,
    obligations: seq<string>,
    risks: seq<RiskFinding>,
    financials: seq<string>,
    summary: string,
    status: Status)

  /** `analyze_contract`: the five passes, or, when one of them raises an exception with
      message `raised.value`, the error record and nothing of the passes. */
  method AnalyzeContract(rt: Runtime, text: string, raised: Option<string>) returns (result: AnalysisResult)
    ensures raised.None? ==>
      && result.status == Complete
      && IsDatesResult(rt, text, result.dates)
      && IsObligationsResult(rt, text, result.obligations)
      && result.risks == Risks(rt, rt.lower(text))
      && result.financials == FinancialTerms(rt, text)
      && IsSummaryResult(rt, text, result.summary)
    ensures raised.Some? ==>
      result == AnalysisResult([], [], [], [], "Analysis failed: " + raised.value, Error)
  {
    match raised
    case None =>
      var dates := ExtractDates(rt, text);
      var obligations := ExtractObligations(rt, text);
      var risks := ExtractRisks(rt, text);
      var financials := ExtractFinancialTerms(rt, text);
      var summary := GenerateSummary(rt, text);
      result := AnalysisResult(dates, obligations, risks, financials, summary, Complete);
    case Some(message) =>
      result := AnalysisResult([], [], [], [], "Analysis failed: " + message, Error);
  }

  /** Empty text, with an engine that finds nothing in it and lowers it to itself, gives
      empty lists, no risks and the fallback summary. */
  lemma EmptyTextAnalysis(rt: Runtime, dates: seq<string>, obligations: seq<string>, summary: string)
    requires forall p :: rt.findAll(p, "") == []
    requires rt.lower("") == ""
    requires IsDatesResult(rt, "", dates)
    requires IsObligationsResult(rt, "", obligations)
    requires IsSummaryResult(rt, "", summary)
    ensures dates == [] && obligations == []
    ensures Risks(rt, "") == [] && FinancialTerms(rt, "") == []
    ensures summary == Fallback
  {
    EmptyTextNoCandidates(rt);
    DistinctPrefixEmpty(dates, DateCandidates(rt, ""), 10);
    DistinctPrefixEmpty(obligations, ObligationCandidates(rt, ""), 8);
    EmptyTextNoRisks(rt);
    EmptyTextSummary(rt, summary);
    EmptyTextNoFinancials(rt);
  }

  lemma EmptyTextNoFinancials(rt: Runtime)
    requires forall p :: rt.findAll(p, "") == []
    ensures FinancialTerms(rt, "") == []
  {
  }

  lemma EmptyTextNoRisks(rt: Runtime)
    ensures Risks(rt, "") == []
  {
    assert !ContainsAny("", RiskKeywords(High));
    assert !ContainsAny("", RiskKeywords(Medium));
    assert !ContainsAny("", RiskKeywords(Low));
    NoRiskKeywordsNoRisks(rt, "");
  }

  lemma EmptyTextSummary(rt: Runtime, summary: string)
    requires forall p :: rt.findAll(p, "") == []
    requires rt.lower("") == ""
    requires IsSummaryResult(rt, "", summary)
    ensures summary == Fallback
  {
    EmptyTextNoCandidates(rt);
    var d :| IsDatesResult(rt, "", d)
      && summary == Assemble(TopicBullets(TriggersOf(""), FinancialTerms(rt, "")) + KeyDatesBullet(d));
    DistinctPrefixEmpty(d, DateCandidates(rt, ""), 10);
    TopicBulletsShape(TriggersOf(""), FinancialTerms(rt, ""));
  }

  lemma EmptyTextNoCandidates(rt: Runtime)
    requires forall p :: rt.findAll(p, "") == []
    requires rt.lower("") == ""
    ensures DateCandidates(rt, "") == [] && ObligationCandidates(rt, "") == []
    ensures !TriggersOf("").Any()
  {
    NoMatchesNoneOf(rt, DatePatterns, "");
    assert !ContainsAny(rt.lower(""), ObligationKeywords);
    assert ObligationLines(rt, [""]) == [];
    assert SplitLines("") == [""];
  }

  lemma {:induction false} NoMatchesNoneOf(rt: Runtime, pats: seq<Pattern>, text: string)
    requires forall p :: p in pats ==> rt.findAll(p, text) == []
    ensures MatchesOf(rt, pats, text) == []
  {
    if |pats| > 0 {
      NoMatchesNoneOf(rt, pats[..|pats| - 1], text);
      assert pats[|pats| - 1] in pats;
    }
  }
}
