# Contract analyzer heuristics, modelled in Dafny

This project models `ContractAnalyzer` from `app/llm_processor.py`. That class is the
keyword and regex engine behind a contract-analysis app. It takes contract text and
returns five things, which `analyze_contract` combines into one record:

- dates;
- obligation sentences;
- tiered risk findings;
- financial amounts;
- a bullet summary.

The class has no state, but each extractor builds a local list step by step. Each one
is therefore a Dafny `method`, with loops where the source loops, proved against a
specification:

- **Functions** specify the results that are fully determined: `Risks` and
  `FinancialTerms`.
- **Relations** specify the results where Python's `list(set(...))` leaves the order
  open: `IsDatesResult`, `IsObligationsResult` and `IsSummaryResult`.

Files:

- `strings.dfy`: modules `Wrappers` and `Strings`. `Option`, plus Python's substring
  `in`, `[:n]`, `str.join` and `str.split('\n')`, with the round trips between split
  and join.
- `sets.dfy`: module `Sets`. `list(set(xs))` and `list(set(xs))[:n]`, modelled as a
  nondeterministic choice of a duplicate-free order.
- `regex.dfy`: module `Regex`.
  - The `re.findall` results for the fixed date, financial and bullet patterns, plus
    `str.lower` and `str.strip`, are fields of a `Builtins` value passed to every
    operation. `Runtime` is the subset of engines whose bullet captures end in `.`,
    `!` or `?` and have none of those earlier, which is what the bullet pattern
    guarantees.
  - The risk-context pattern `[^.]*kw[^.]*\.` is modelled concretely. It is proved to
    give the leftmost match of that pattern.
- `contract_analyzer.dfy`: module `ContractAnalyzer`. The six methods of the class and
  the lemmas about them.

### Where the code and its documentation differ (the model follows the code)

- **Risk break.** The `break` at app/llm_processor.py:85 leaves the whole tier. The
  documentation (and the code comment on that line) says one finding per keyword.
  The code gives at most one finding per tier: the first keyword of the tier's list that
  occurs in the text. So there are at most three findings.
- **The worked example.** The documentation's example expects High findings for both
  "termination" and "breach" in "...may be terminated for breach." The lowercased text
  does not contain "termination" ("terminated" is a different word). Also, one finding
  per tier allows only one High finding anyway. Under the code the only finding is
  `breach`.
- **Liability line in the example.** The same example expects a
  "Liability and risk allocation" line. None of `liable`, `liability`, `responsible`
  and `damages` occurs in that text, so the code adds no such line.
- **Bullets are not anchored.** The documentation describes bullet captures as lines
  that start with `•`, `-` or `*`. The pattern at app/llm_processor.py:53 is not
  anchored, so any of these characters anywhere starts a capture. The model
  abstracts the bullet pattern, and claims only the terminator shape of a capture.
- **Summary fallback.** The documentation says the fallback sentence is returned when
  no trigger fires. In the code it is returned only when no trigger fires **and** there
  are no dates (app/llm_processor.py:127-134). `GenerateSummary` states the code's
  condition.

## Model

| member | source | states |
|---|---|---|
| Strings.Take | app/llm_processor.py:102 | `s[:n]` has length `min(n, len(s))` and is a prefix of `s` |
| Strings.SplitLines | app/llm_processor.py:42 | `text.split('\n')` yields at least one piece and no piece holds a newline |
| Strings.JoinSplitLines | app/llm_processor.py:42 | joining the pieces of `split('\n')` with `"\n"` gives back the text |
| Strings.SplitJoinLines | app/llm_processor.py:132 | newline-free non-empty lists joined with `"\n"` split back into the same list |
| Sets.ListOfSet | app/llm_processor.py:31 | `list(set(xs))` is duplicate-free, holds exactly the distinct values and has as many entries as there are of them |
| Sets.DistinctPrefix | app/llm_processor.py:31 | `list(set(xs))[:n]` is duplicate-free, drawn from `xs`, of length `min(n, number of distinct values)` |
| Sets.DistinctPrefixKeepsAll | app/llm_processor.py:31 | with at most `n` distinct values, every value of `xs` survives the cut |
| Sets.DistinctPrefixEmpty | app/llm_processor.py:31 | for `n > 0` the result is empty exactly when `xs` is |
| Regex.NextPeriod | app/llm_processor.py:72 | finds the first `.` at or after a position, with none between, or reports that none is left |
| Regex.ContextFromCorrect | app/llm_processor.py:72-73 | the segment scan from `start` finds no context exactly when no match of `[^.]*kw[^.]*\.` starts at or after `start`, and otherwise returns the match with the leftmost start |
| Regex.FirstContextIsLeftmostMatch | app/llm_processor.py:72-75 | `contexts` is empty exactly when the pattern matches nowhere, and `contexts[0]` is the leftmost match |
| Regex.FirstContextShape | app/llm_processor.py:72-76 | a context found ends in `.`, has no earlier `.` and contains the keyword |
| ContractAnalyzer.MatchesOfMembers | app/llm_processor.py:18-19 | a string is in the collected matches exactly when one of the patterns matched it |
| ContractAnalyzer.LongerThanTwoMembers | app/llm_processor.py:27-29 | the length filter keeps exactly the matches longer than two characters |
| ContractAnalyzer.ExtractDates | app/llm_processor.py:17-31 | the nested loops and the dedup produce some duplicate-free order of the long-enough matches, cut to 10 |
| ContractAnalyzer.DatesResultProperties | app/llm_processor.py:9-31 | a dates result has no duplicates and at most 10 entries, each longer than 2 and a match of one of the five patterns; with at most 10 distinct candidates every long-enough match appears |
| ContractAnalyzer.ObligationLinesMembers | app/llm_processor.py:45-50 | a kept line is exactly the stripped form of a line whose lowercase form holds a keyword and whose stripped length is in (10, 500) |
| ContractAnalyzer.ExtractObligations | app/llm_processor.py:33-56 | the line loop, the bullet captures and the dedup produce some duplicate-free order of the candidates, cut to 8 |
| ContractAnalyzer.ObligationsResultProperties | app/llm_processor.py:42-56 | an obligations result has no duplicates and at most 8 entries, each a qualifying stripped line or a bullet capture ending in `.`, `!` or `?`; with at most 8 distinct candidates none is lost |
| ContractAnalyzer.FirstHit | app/llm_processor.py:69-70 | the inner scan finds nothing exactly when no keyword of the tier occurs, else the first keyword in list order that occurs |
| ContractAnalyzer.FirstHitStep | app/llm_processor.py:69-85 | one step of the inner scan: stop at the keyword if present, else go on with the rest |
| ContractAnalyzer.Describe | app/llm_processor.py:71-78 | with a context: the stripped context cut to 150 plus `"..."`, so at most 153 characters and ending in `"..."`; without one: exactly `"Found '<kw>' in contract"` |
| ContractAnalyzer.Findings | app/llm_processor.py:68-85 | tiers visited give at most one finding each, each finding tagged with one of those tiers |
| ContractAnalyzer.FindingsStep | app/llm_processor.py:68-85 | one step of the tier loop appends that tier's finding |
| ContractAnalyzer.ExtractRisks | app/llm_processor.py:58-87 | the nested loops with `break`, then `[:8]`, give exactly `Risks` of the lowercased text |
| ContractAnalyzer.RisksByTier | app/llm_processor.py:59-68 | the findings are the High tier's, then the Medium tier's, then the Low tier's |
| ContractAnalyzer.TierFindingShape | app/llm_processor.py:69-85 | a tier has at most one finding, and has one exactly when one of its keywords occurs; that finding has the tier's level, the first hit as risk and its description |
| ContractAnalyzer.FindingsOrdered | app/llm_processor.py:68 | tiers visited in increasing rank give findings in increasing rank |
| ContractAnalyzer.RisksInTierOrder | app/llm_processor.py:68-87 | at most three findings in strictly increasing tier order, so `[:8]` never drops one |
| ContractAnalyzer.FindingOfItsTier | app/llm_processor.py:68-84 | each finding of the tiers visited is the finding of the tier its level names |
| ContractAnalyzer.RiskTierPresent | app/llm_processor.py:68-70 | a tier has a finding if and only if one of its keywords is a substring of the lowercased text |
| ContractAnalyzer.RiskFindingIsFirstHit | app/llm_processor.py:69-85 | each finding's risk is the first keyword of its tier that occurs, and its description is that keyword's description |
| ContractAnalyzer.NoRiskKeywordsNoRisks | app/llm_processor.py:65-87 | there are no findings if and only if no keyword of any tier occurs |
| ContractAnalyzer.FinancialTerms | app/llm_processor.py:97-102 | the first `min(5, total)` entries of the rupee, INR and percentage matches concatenated in that order, duplicates kept |
| ContractAnalyzer.ExtractFinancialTerms | app/llm_processor.py:89-102 | the `extend` loop and the cut give exactly `FinancialTerms` |
| ContractAnalyzer.TopicBulletsShape | app/llm_processor.py:107-125 | at most five topic bullets; none exactly when no trigger fires; the payment bullet comes first exactly when payment words occur; each other bullet is present exactly when its trigger fires |
| ContractAnalyzer.KeyDatesBullet | app/llm_processor.py:127-129 | no key-dates bullet exactly when there are no dates; otherwise one bullet listing the first `min(3, len(dates))` dates |
| ContractAnalyzer.AssembleFallback | app/llm_processor.py:131-134 | the fallback sentence comes out exactly when there are no bullets |
| ContractAnalyzer.AssembleLines | app/llm_processor.py:131-132 | a summary with bullets reads back line by line as the title and then the bullets in order |
| ContractAnalyzer.SummaryOutcome | app/llm_processor.py:104-134 | the assembled text is a summary result, and is the fallback exactly when no trigger fires and there are no date candidates |
| ContractAnalyzer.GenerateSummary | app/llm_processor.py:104-134 | the method returns the title and the bullets (payment, confidentiality, termination, liability, service, key dates) for some dates result, and the fallback sentence exactly when no trigger fires and there are no date candidates |
| ContractAnalyzer.AnalyzeContract | app/llm_processor.py:136-161 | without a fault, each field satisfies its extractor's specification on the same text and the status is Complete; with a fault, the four lists are empty, the summary is `"Analysis failed: " + message` and the status is Error |
| ContractAnalyzer.EmptyTextAnalysis | app/llm_processor.py:17-134 | on empty text, with an engine that finds nothing there, dates, obligations, risks and financials are empty and the summary is the fallback sentence |
| ContractAnalyzer.EmptyTextNoCandidates | app/llm_processor.py:17-56 | empty text has no date or obligation candidates and fires no summary trigger |
| ContractAnalyzer.EmptyTextNoRisks | app/llm_processor.py:58-87 | empty text has no risk findings |
| ContractAnalyzer.EmptyTextNoFinancials | app/llm_processor.py:89-102 | empty text has no financial terms when no pattern matches it |
| ContractAnalyzer.EmptyTextSummary | app/llm_processor.py:104-134 | the summary of empty text is the fallback sentence |

## Left out

- app/main.py as a whole: the Streamlit page, the temporary file and its removal, and the
  n8n display payload. These are presentation and I/O.
- PDF and DOCX text extraction through `app.utils`. That module is not part of this
  model; the extracted text is an input.
- Python's `re` engine for the date, financial and bullet patterns (backtracking, `\b`,
  Unicode `\w` and `\d`, `IGNORECASE`). These are the abstract `findAll` field of
  `Builtins`, and the model proves only the post-processing around them.
- Unicode case mapping in `str.lower` and the whitespace set of `str.strip`. These are the
  abstract `lower` and `strip` fields.
- The tuple branch of `extract_dates` (app/llm_processor.py:22-26). No date pattern has
  more than one capture group, so `re.findall` never returns tuples there and the
  branch is dead.
- `re.IGNORECASE` on the risk-context search (app/llm_processor.py:73). `Regex.FirstContext`
  matches the keyword case-sensitively against the lowercased text. That is the same
  for ASCII text, but not for every Unicode character. Under the flag, Python also
  lets a keyword's `s` match `ſ` (U+017F) and its `i` match `ı` (U+0131), and
  `str.lower` keeps both of those characters. So when the text spells a keyword
  with them in an earlier sentence, the source picks that earlier sentence. The
  model then picks a later one, the first with the keyword written plainly. Take
  "The lawſuit was dropped. A lawsuit followed.": the source's description starts
  "the lawſuit was dropped." and the model's starts "a lawsuit followed.". Each
  keyword is inserted into the pattern literally, because none contains a regex
  metacharacter or a `.`.
- The iteration order of Python's `set`. It is hash-randomised per process, and
  `ListOfSet` picks an unspecified order.
- The exception raised inside `analyze_contract` and its cause. The fault is the
  parameter `raised`; when it is present, the passes' partial work is discarded, as in
  the source.
- ContractAnalyzer.GenerateSummary: the dates listed in the summary come from their own
  call to `extract_dates`. The contract states that they come from some dates result,
  not from the same one `AnalyzeContract` stores.
- ContractAnalyzer.ObligationsResultProperties: about bullet captures it claims only the
  terminator shape. Whether a capture holds one of the five bullet keywords belongs
  to the abstract regex engine.
- ContractAnalyzer.AnalyzeContract: the record holds the `Status` and `Level` datatypes,
  not the source's strings. `StatusLabel` gives the status strings
  ("✅ Analysis Complete", "❌ Error"). `Label` gives the risk-level dictionary keys
  (app/llm_processor.py:60-62).
