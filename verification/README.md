# Phishing classifier: a Dafny model of its scoring and combining core

The system classifies a URL, a text, an HTML page and a screenshot as
phishing or legitimate. Several detectors each produce a record made of:

- the agent name;
- a score in [0, 1];
- a result word;
- findings, a summary and a suggested question, depending on the detector.

An orchestrator runs the detectors that the inputs call for and combines
their records into one verdict by a weighted mean.

This project models that core in Dafny and proves what each part promises:

- **Orchestrator** (`orchestrator.dfy`): `PhishingOrchestrator`.
  - The dispatch rule of `analyze_full`.
  - The weighted-mean consolidation of `_consolidate` and its three verdict bands.
  - The reply rule of `chat_explanation`.
- **Rule-based detectors.** Each is a fixed list of rules. A rule that fires adds a fixed amount and one finding. The sum is clamped or capped, then read against fixed thresholds.
  - `url_agent.dfy`: `URLLexicalAgent`.
  - `html_agent.dfy`: `HTMLStructuralAgent`.
  - `unified_agent.dfy`: `UnifiedTextHTMLAgent`, with its LLM pass-through and heuristic fallback.
  - `ssl_agent.dfy`: `SSLAnalysisAgent`, with its issuer dictionary and its age and duration rules.
  - `scoring.dfy`: the rule shape the four share. Its accumulation functions mirror `score += …; findings.append(…)` rule by rule.
- **Wrappers.**
  - `text_agent.dfy`: `NLPTextAgent`, which maps a classifier label to a score.
  - `vision_agent.dfy`: `VisionAgent`, which passes on the model's answer or returns a fixed fallback.
- **LLM client** (`llm_client.dfy`): `LLMClient`.
  - `{{key}}` template rendering.
  - Backend and model selection.
  - The model-handle cache and the prompt cache, kept in a class whose methods update them.
- **Support modules.**
  - `records.dfy`: the records exchanged.
  - `text.dfy`: Python string operations (`strip`, `lower`, `in`, `count`, `join`, `replace`).
  - `urls.dfy`: the `netloc` part of `urllib.parse.urlsplit` and the dotted-quad regular expression.

**How the model is written.** Imperative source code is modelled imperatively:

- `analyze_full`'s successive appends;
- the `_consolidate` loop;
- the `score +=` / `findings.append` sequences;
- the nested loop that fills the SSL issuer dictionary;
- the template substitution loop;
- the client's caches.

Each such method is proved equal to a specification function. The properties are then proved about that function.

**Inputs the model takes as parameters.** Everything the source obtains from outside:

- HTTP fetches: a `Fetcher`. The source's `None` for a failed request is "".
- BeautifulSoup's findings: a `Page`, from a `Parser` that may raise.
- The TLS handshake: a `Handshake`.
- `strptime`: a `TimeParser`, giving whole seconds.
- The clock: `now`.
- The transformers pipeline: a `Pipe`.
- The language model: an `Oracle` for the detectors, and an `Invoker` for the client.
- The prompt directory: a map from file name to content.
- The `USE_OPENAI` setting: a parameter.

Python's `None`, `""` and `b""` are all falsy wherever the source tests an input, so a missing input is the empty string or empty byte sequence.

## Model

| member | source | states |
|---|---|---|
| Orchestrator.Weight | agents/orchestrator.py:62-74 | a record's weight is its agent's table weight, or 0.25 for an unknown or missing name; always between 0.15 and 0.35 |
| Orchestrator.DetectorWeights | agents/orchestrator.py:62-74 | the four detector names get 0.25, 0.35, 0.25 and 0.15; any name outside the table gets the 0.25 default |
| Orchestrator.NamelessWeight | agents/orchestrator.py:73-74 | a record with no "agent" key, such as the URL detector's empty-URL record, weighs 0.25 |
| Orchestrator.Consolidate | agents/orchestrator.py:54-100 | the loop accumulates the sum of score times weight and the sum of weights; the result equals the consolidation function (empty list, weighted mean, verdict) |
| Orchestrator.VerdictBands | agents/orchestrator.py:58-94 | no records give "Desconhecido" with score 0 and "Nenhum dado fornecido."; otherwise the total weight is positive, the score is the weighted mean, and the result is "Phishing" iff score > 0.6, "Suspeito" iff 0.4 < score <= 0.6, "Legítima" iff score <= 0.4, each with its fixed summary |
| Orchestrator.ScoreInRange | agents/orchestrator.py:72-83 | when every record's score lies in [0, 1], so does the consolidated score |
| Orchestrator.SumBounds | agents/orchestrator.py:72-77 | with scores in [0, 1], the weighted sum lies between 0 and the total weight, and the total weight is at least 0.15 per record |
| Orchestrator.TermBounds | agents/orchestrator.py:75-76 | a score in [0, 1] contributes between 0 and its whole weight |
| Orchestrator.RatioBounds | agents/orchestrator.py:83 | a part of a positive whole, divided by it, lies in [0, 1] |
| Orchestrator.WeightPositive | agents/orchestrator.py:77-83 | a non-empty list has total weight at least 0.15, so the division always happens |
| Orchestrator.SingleRecord | agents/orchestrator.py:72-83 | a single record's consolidated score is its own score (a missing score counts as 0) |
| Orchestrator.PermutationInvariant | agents/orchestrator.py:72-94 | two record lists with the same multiset of records consolidate to the same result, score and summary |
| Orchestrator.SumPermutation | agents/orchestrator.py:72-77 | a sum over the records does not depend on their order |
| Orchestrator.SumConcat | agents/orchestrator.py:72-77 | the sum over a concatenation is the sum of the sums of its parts |
| Orchestrator.SumRemove | agents/orchestrator.py:72-77 | removing one record removes exactly its term from the sum |
| Orchestrator.SumAround | agents/orchestrator.py:72-77 | a record placed between two parts adds its own term to their sum |
| Orchestrator.SumSingle | agents/orchestrator.py:72-77 | the sum over one record is that record's term |
| Orchestrator.MultisetRemove | agents/orchestrator.py:72 | removing the record at one position removes exactly one occurrence of it from the multiset |
| Orchestrator.AnalyzeFull | agents/orchestrator.py:20-52 | `agent_details` is exactly the dispatched records; verdict, risk score and summary are the consolidation of those records |
| Orchestrator.RunDetectors | agents/orchestrator.py:24-42 | the appended records equal, in order, the records of the detectors the inputs call for |
| Orchestrator.AddUrlRecord | agents/orchestrator.py:27-28 | the URL detector's record is appended iff there is a URL |
| Orchestrator.AddTextRecord | agents/orchestrator.py:31-34 | the text detector's record is appended iff there is text or a URL; it analyses the text, or the URL when there is no text |
| Orchestrator.AddHtmlRecord | agents/orchestrator.py:37-38 | the HTML detector's record is appended iff there is HTML or a URL |
| Orchestrator.AddVisionRecord | agents/orchestrator.py:41-42 | the vision detector's record is appended iff there is an image |
| Orchestrator.DispatchRule | agents/orchestrator.py:24-42 | the number of records is [url] + [text or url] + [html or url] + [image]; no records iff no input; with a URL the first three are URL, text, HTML; with text and no URL the text record comes first; the vision record, when present, is last |
| Orchestrator.NoInputs | agents/orchestrator.py:24-59 | with no input nothing is dispatched and the verdict is "Desconhecido" |
| Orchestrator.ReplyNeedsAnswer | agents/orchestrator.py:114-117 | the reply is the response's "answer" value iff the response is a dictionary with that key; otherwise it is the fixed overload message |
| Orchestrator.ChatAlwaysFallsBack | agents/orchestrator.py:102-117 | the client answers only with result, score and summary (or nothing), so `chat_explanation` always returns the fixed overload message |
| Orchestrator.Consolidated | agents/orchestrator.py:54-100 | definition: no records give "Desconhecido", 0 and the no-data summary; otherwise the weighted sum over the total weight, graded into the three bands |
| Orchestrator.Graded | agents/orchestrator.py:86-94 | definition: above 0.6 "Phishing", above 0.4 "Suspeito", otherwise "Legítima", each with its summary |
| Orchestrator.Weighted | agents/orchestrator.py:74-76 | definition: a record's score (0 when missing) times its weight |
| Orchestrator.Sum | agents/orchestrator.py:72-78 | definition: the sum of a term over the records, in order |
| Orchestrator.Dispatched | agents/orchestrator.py:24-42 | definition: the URL, text, HTML and vision records, each present when its detector runs, in that order |
| Orchestrator.ChatExplanation | agents/orchestrator.py:102-117 | definition: the chat prompt called with the question and the rendered analysis; the answer's "answer" value, or the overload message |
| UrlAgent.Analyze | agents/url_agent.py:8-64 | the record equals the specification: the empty-URL record, or the clamped rule sum with the rule findings and the 0.5 verdict |
| UrlAgent.ApplyRules | agents/url_agent.py:19-53 | the score is the sum of the amounts of the fired rules (IP 0.8, length 0.3, dots 0.4, '@' 0.7, hyphens 0.2, 0.2 per keyword) and the findings are theirs, in rule order |
| UrlAgent.ScoredUrl | agents/url_agent.py:19-64 | for a non-empty URL: score in [0, 1]; "Phishing" iff score > 0.5, otherwise "Legítima"; one finding per fired rule; no findings iff no rule fires |
| UrlAgent.UnclampedScore | agents/url_agent.py:56 | the raw sum is non-negative; the score is the raw sum when it is at most 1, and 1.0 above |
| UrlAgent.RulesNonNegative | agents/url_agent.py:22-53 | every rule adds a non-negative amount |
| UrlAgent.IpRuleFirst | agents/url_agent.py:23-26 | an IP host adds at least 0.8, and its finding comes first |
| UrlAgent.IpHostIsPhishing | agents/url_agent.py:23-57 | a URL whose host fully matches the dotted-quad pattern scores at least 0.8 and is "Phishing", with the IP finding first |
| UrlAgent.OverlappingKeywords | agents/url_agent.py:49-53 | a URL mentioning "paypal" has both "pay" and "paypal" among its keywords |
| UrlAgent.IpAndKeyword | agents/url_agent.py:23-53 | an IP host together with any keyword makes the raw sum at least 1.0 |
| UrlAgent.IpWithKeywordIsCertain | agents/url_agent.py:23-57 | such a URL scores exactly 1.0, "Phishing" |
| UrlAgent.IpLoginExample | agents/url_agent.py:15-57 | `http://192.168.1.1/login?verify=1` scores exactly 1.0 and is "Phishing" |
| UrlAgent.KeywordAnywhere | agents/url_agent.py:49-50 | a part of the URL that lowers to a suspicious keyword makes that keyword found, wherever it sits |
| UrlAgent.KelvinSignKeyword | agents/url_agent.py:49-50 | "ban" followed by the KELVIN SIGN names "bank" anywhere in a URL, because that sign lowers to 'k' |
| UrlAgent.FeaturesOf | agents/url_agent.py:15-50 | definition: whether the host is a dotted quad, the URL's length, the host's dots and hyphens, whether the URL has '@', and the keywords found |
| UrlAgent.RulesOver | agents/url_agent.py:22-53 | definition: the IP (0.8), length (0.3), dots (0.4), '@' (0.7), hyphen (0.2) and keyword (0.2 each) rules, in that order |
| UrlAgent.Keywords | agents/url_agent.py:49-50 | definition: the listed keywords occurring in the lower-cased URL, in list order |
| UrlAgent.Verdict | agents/url_agent.py:57 | definition: "Phishing" above 0.5, otherwise "Legítima" |
| UrlAgent.Expected | agents/url_agent.py:8-64 | definition: the empty-URL record, or the clamped rule sum with its verdict and the fired rules' findings |
| UrlAgent.SuspiciousKeywordsDistinct | agents/url_agent.py:49 | the nine suspicious keywords are all different |
| UrlAgent.KeywordRuleAmount | agents/url_agent.py:49-53 | the keyword rule adds 0.2 for each distinct listed keyword occurring in the lowered URL, each exactly once |
| HtmlAgent.Analyze | agents/html_agent.py:20-80 | the record equals the specification: the no-HTML record, the error record when parsing raises, or the scored page |
| HtmlAgent.ScorePage | agents/html_agent.py:33-66 | the password rule, then one rule per form, then the hidden and link rules: the score is the sum of the fired amounts and the findings are theirs, in order |
| HtmlAgent.CheckPassword | agents/html_agent.py:37-40 | 0.8 and its finding exactly when a URL is given, it does not start with "https", and the page has a password input |
| HtmlAgent.ScoreForms | agents/html_agent.py:43-52 | each form that posts elsewhere adds 0.5 and its finding to the running score and report, in document order |
| HtmlAgent.PostsElsewhere | agents/html_agent.py:45-50 | a form posts elsewhere iff its lower-cased action starts with "http", a URL is given, and the action's host differs from the URL's host (not lower-cased) |
| HtmlAgent.CheckHidden | agents/html_agent.py:55-58 | 0.2 and its finding iff more than five elements are hidden |
| HtmlAgent.CheckLinks | agents/html_agent.py:61-66 | 0.3 and its finding iff there are links and more than 80 % of them are external |
| HtmlAgent.FormRules | agents/html_agent.py:44-52 | one rule per form |
| HtmlAgent.FormRuleAt | agents/html_agent.py:44-52 | the k-th form rule is that form's rule |
| HtmlAgent.Rules | agents/html_agent.py:36-66 | the page's rule list has one rule per form plus three |
| HtmlAgent.RuleOrder | agents/html_agent.py:36-66 | the password rule comes first, then the form rules in document order, then the hidden rule, then the link rule |
| HtmlAgent.FixedRules | agents/html_agent.py:36-66 | the password, hidden and link rules sit at the start and at the last two positions |
| HtmlAgent.RulesNonNegative | agents/html_agent.py:36-66 | every rule adds a non-negative amount |
| HtmlAgent.NoContent | agents/html_agent.py:25-29 | no HTML, even after the fetch, gives score 0, "Neutral" and "HTML não disponível para análise" |
| HtmlAgent.FetchOnlyWithoutHtml | agents/html_agent.py:25-26 | the fetcher is consulted only when there is no HTML and there is a URL |
| HtmlAgent.ParseFailure | agents/html_agent.py:78-80 | a parser exception gives score 0 and "Error" |
| HtmlAgent.ScoredPage | agents/html_agent.py:68-77 | a scored page has a score in [0, 1], "Phishing" iff score > 0.4 (otherwise "Legítima"), and one finding per fired rule |
| HtmlAgent.PasswordOverHttpIsPhishing | agents/html_agent.py:37-70 | a password input on a non-https URL alone makes the page "Phishing" with score at least 0.8 |
| HtmlAgent.ExternalFormIsPhishing | agents/html_agent.py:43-70 | any form posting elsewhere makes the page "Phishing" with score at least 0.5, and names the action's host |
| HtmlAgent.UpperCaseHostMakesFormsExternal | agents/html_agent.py:45-50 | the URL's host is not lower-cased, so an "http" action counts as external whenever the URL's host has an upper-case letter |
| HtmlAgent.LinkRatio | agents/html_agent.py:61-66 | no links never fire the rule; all links external fires it; no external link never fires it |
| HtmlAgent.Ratio | agents/html_agent.py:64 | the ratio of a whole to itself is 1 and of nothing to a whole is 0 |
| HtmlAgent.FewHiddenElements | agents/html_agent.py:55-58 | five or fewer styled elements cannot fire the hidden rule |
| HtmlAgent.ExternalFormScenario | agents/html_agent.py:43-70 | a page whose one form posts to `http://other-host` from `http://host` gets exactly 0.5, "Phishing" and the one form finding (as in `verify_llm.py`'s example) |
| HtmlAgent.RemoveChar | agents/html_agent.py:55 | `value.replace(' ', '')` holds no space and only characters of the value, is no longer than it, and is the value itself when it has no space |
| HtmlAgent.RemoveCharCounts | agents/html_agent.py:55 | the replacement keeps every other character exactly as often as the value holds it: its multiset is the value's with the space count set to 0 |
| HtmlAgent.HiddenCountConcat | agents/html_agent.py:55-56 | the hidden count of two style lists is the sum of their counts |
| HtmlAgent.NoHiddenCount | agents/html_agent.py:55-56 | the hidden count is zero iff no style hides its element |
| HtmlAgent.ExternalCountConcat | agents/html_agent.py:63 | the outbound-link count of two lists is the sum of their counts |
| HtmlAgent.AllExternalCount | agents/html_agent.py:63 | every link counts as outbound iff every href starts with "http" |
| HtmlAgent.RemoveCharConcat | agents/html_agent.py:55 | removing a character from a concatenation removes it from each part and keeps the parts in order, so the kept characters keep their order |
| HtmlAgent.HiddenCount | agents/html_agent.py:55-56 | the hidden count is at most the number of styled elements |
| HtmlAgent.ExternalCount | agents/html_agent.py:63 | the outbound count is at most the number of links |
| HtmlAgent.IsHidden | agents/html_agent.py:55 | definition: with spaces removed, the style contains "display:none" or "visibility:hidden" |
| HtmlAgent.PasswordOverHttp | agents/html_agent.py:37-38 | definition: a URL is given, it does not start with "https", and the page has a password input |
| HtmlAgent.MostlyExternal | agents/html_agent.py:62-64 | definition: at least one link, and the outbound share above 0.8 |
| HtmlAgent.ActionDomain | agents/html_agent.py:45-48 | definition: the network location of the lower-cased action |
| HtmlAgent.PostsTo | agents/html_agent.py:45-50 | definition: the lower-cased action starts with "http", a URL is given, and the action's host differs from the URL's |
| HtmlAgent.Verdict | agents/html_agent.py:70 | definition: "Phishing" above 0.4, otherwise "Legítima" |
| HtmlAgent.Expected | agents/html_agent.py:20-80 | definition: the no-HTML record, the error record when the parser raises, or the scored page |
| TextAgent.Analyze | agents/text_agent.py:22-55 | every record has the detector's name, a score and exactly one finding; the result is one of "Neutral", "Error", "Phishing", "Legítima" |
| TextAgent.Classified | agents/text_agent.py:29-55 | past the length guard the result is "Error", "Phishing" or "Legítima", with one finding |
| TextAgent.ShortTextIsNeutral | agents/text_agent.py:26-27 | a text with fewer than ten non-blank characters gets score 0 and "Neutral", without consulting the pipeline |
| TextAgent.NeutralOrErrorCauses | agents/text_agent.py:26-55 | "Neutral" iff the stripped text is shorter than ten; "Error" iff the text passes that guard and the pipeline is missing or raises; both give score 0 |
| TextAgent.ClassifiedText | agents/text_agent.py:35-45 | once classified: "Phishing" iff the lower-cased label contains "phishing" or "1", otherwise "Legítima"; the score is the confidence for phishing and one minus it otherwise |
| TextAgent.ScoreInRange | agents/text_agent.py:45 | a confidence in [0, 1] gives a score in [0, 1] |
| TextAgent.OnlyWindowMatters | agents/text_agent.py:35 | only the first 512 characters are classified: two texts that pass the guard and agree on them get the same record |
| TextAgent.Truncated | agents/text_agent.py:35 | `text[:512]` is a prefix of at most 512 characters, the whole text when it is that short |
| TextAgent.LabelExamples | agents/text_agent.py:37-41 | "LABEL_1" and "Phishing" are phishing labels; "LABEL_0" and "benign" are not |
| TextAgent.Percent | agents/text_agent.py:51 | the confidence is rendered with two decimals and a trailing '%' |
| TextAgent.RoundHalfEven | agents/text_agent.py:51 | the rounded value is within one half of the input, and an exact tie goes to the even neighbour |
| TextAgent.PercentExamples | agents/text_agent.py:51 | 0.9 renders as "90.00%" and 0.123456 as "12.35%" |
| TextAgent.TwoDigits | agents/text_agent.py:51 | the hundredths of the percentage take exactly two characters |
| TextAgent.TwoDigitsValue | agents/text_agent.py:51 | the two characters read back as the number below 100, so a number below ten gets a leading zero |
| TextAgent.IsPhishingLabel | agents/text_agent.py:37-41 | definition: the lower-cased label contains "phishing" or "1" |
| VisionAgent.NoImage | agents/vision_agent.py:14-18 | no image gives score 0, "Neutral" and "Nenhuma imagem fornecida.", whatever the model |
| VisionAgent.WithImage | agents/vision_agent.py:21-33 | with an image: an answer is passed on with its result, score and summary; no answer gives 0.1, "Legítima" and the fixed basic-mode finding |
| VisionAgent.VisionCall | agents/vision_agent.py:21 | the model is called with "prompt_vision.txt", no variables, the image and no model preference |
| VisionAgent.OnlyTheVisionCall | agents/vision_agent.py:21-33 | the record depends on the model only through that one call |
| VisionAgent.ScoreInRange | agents/vision_agent.py:21-33 | when the model keeps scores in [0, 1], so does the detector |
| VisionAgent.Analyze | agents/vision_agent.py:8-33 | every record carries the detector's name and a score |
| Records.Tagged | agents/vision_agent.py:22-25 | a model answer passed on keeps its result, score and summary, gains only the agent name, and has no findings |
| Records.AsDict | agents/llm_client.py:114-116 | the client's answer dictionary has exactly the keys result, score and summary |
| Records.Record | agents/html_agent.py:72-77 | a detector's own record has exactly the given agent, score, result and findings, and no summary or suggested question |
| UnifiedAgent.Analyze | agents/unified_agent.py:36-105 | the outcome equals the specification: the insufficient-data record, the model's answer, or the heuristic fallback (or the parser's exception) |
| UnifiedAgent.Consult | agents/unified_agent.py:57-105 | the model's answer when there is one, otherwise the heuristic fallback |
| UnifiedAgent.ScoreHeuristics | agents/unified_agent.py:70-105 | without HTML the text's signals alone; with HTML, the parsed page's too, or the parser's exception |
| UnifiedAgent.ApplyRules | agents/unified_agent.py:72-94 | starting from the fallback finding, each fired heuristic adds its amount and its finding, in order |
| UnifiedAgent.InsufficientData | agents/unified_agent.py:45-55 | the insufficient-data record comes back iff the stripped text (or URL) is shorter than five and there is no HTML; then the model and parser are not consulted |
| UnifiedAgent.LlmPassThrough | agents/unified_agent.py:58-68 | a model answer is returned with its result, score and summary and the agent name "NLP Text Analyzer" |
| UnifiedAgent.NoAnswer | agents/unified_agent.py:70-94 | with no answer: without HTML the text's fallback; with HTML the page's fallback, or the parser's exception |
| UnifiedAgent.FallbackRecord | agents/unified_agent.py:72-105 | findings start with "Análise heurística (fallback)" and then name each fired heuristic once; score in [0, 1], the raw sum when at most 1; "Phishing" iff >= 0.5, "Suspeito" iff in [0.25, 0.5), "Legítima" iff < 0.25; the PT question iff lang is "PT" |
| UnifiedAgent.KeywordAmount | agents/unified_agent.py:79 | the keyword amount is a tenth per keyword, at most 0.5 |
| UnifiedAgent.KeywordsAlone | agents/unified_agent.py:77-97 | with keywords alone the score is their amount, "Phishing" iff at least five and "Suspeito" iff three or four |
| UnifiedAgent.TextOnly | agents/unified_agent.py:86-94 | without HTML the form and password heuristics cannot fire and the score is at most 0.7 |
| UnifiedAgent.EverythingFires | agents/unified_agent.py:79-96 | five keywords, a link, a form and a password add 1.05, which the cap brings to 1.0 |
| UnifiedAgent.RulesNonNegative | agents/unified_agent.py:72-94 | every heuristic adds a non-negative amount |
| UnifiedAgent.FirstThree | agents/unified_agent.py:80 | `matched[:3]` is a prefix with min(n, 3) keywords |
| UnifiedAgent.Snippet | agents/unified_agent.py:46 | the snippet has at most 1500 characters and is a prefix of the HTML (the whole HTML when short enough), or "Não disponível" when there is none |
| UnifiedAgent.AnalysisText | agents/unified_agent.py:45 | the text when there is one, otherwise the URL |
| UnifiedAgent.UnifiedCall | agents/unified_agent.py:58-63 | the model is called with "prompt_unified.txt" and the text, the URL or "Não fornecida", the snippet and the language |
| UnifiedAgent.Cap | agents/unified_agent.py:96 | `min(score, 1.0)` is at most 1 and at most the score, and is one of the two |
| UnifiedAgent.LinkExamples | agents/unified_agent.py:82 | `http://` or `https://` followed by a non-blank character is a link |
| UnifiedAgent.LinkAt | agents/unified_agent.py:82 | definition: "http://" or "https://" at that position, followed by a non-whitespace character |
| UnifiedAgent.HasLink | agents/unified_agent.py:82 | definition: a link starts at some position of the text |
| UnifiedAgent.SignalsOf | agents/unified_agent.py:76-94 | definition: the keywords in the lowered text, whether it has a link, and whether the parsed page has a form and a password input |
| UnifiedAgent.RulesOver | agents/unified_agent.py:78-94 | definition: the keyword (a tenth each, at most 0.5), link (0.2), form (0.2) and password (0.15) heuristics, in that order |
| UnifiedAgent.Verdict | agents/unified_agent.py:97 | definition: "Phishing" from 0.5, "Suspeito" from 0.25, otherwise "Legítima" |
| UnifiedAgent.Heuristic | agents/unified_agent.py:70-105 | definition: the fallback over the text's signals, and over the parsed page's when there is HTML; a parser exception escapes |
| UnifiedAgent.Consulted | agents/unified_agent.py:57-105 | definition: the model's answer tagged with the agent name, or the heuristic fallback when there is none |
| UnifiedAgent.Expected | agents/unified_agent.py:36-105 | definition: the insufficient-data record when the guard holds, otherwise the consulted outcome |
| UnifiedAgent.PhishingKeywordsDistinct | agents/unified_agent.py:10-17 | the 28 phishing keywords are all different |
| UnifiedAgent.KeywordsCountedOnce | agents/unified_agent.py:76-79 | the fallback matches each listed keyword occurring in the lowered text exactly once, so its amount counts distinct keywords |
| SslAgent.Analyze | agents/ssl_agent.py:16-112 | the outcome equals the specification: nothing, the missing-certificate record, or the scored certificate |
| SslAgent.BuildIssuerMap | agents/ssl_agent.py:47-51 | the nested loop stores each pair, RDN by RDN and item by item, exactly as the left fold over the flattened items does |
| SslAgent.StoreStep | agents/ssl_agent.py:49-51 | one more item stores its pair over the dictionary so far, if it is a pair |
| SslAgent.FlattenStep | agents/ssl_agent.py:48 | one more RDN appends its items after the earlier ones |
| SslAgent.LaterPairWins | agents/ssl_agent.py:47-51 | a key's value is the one from the last pair carrying that key |
| SslAgent.KeyAbsent | agents/ssl_agent.py:47-53 | a key no pair carries is absent, so `get` gives "" |
| SslAgent.KeysFromPairs | agents/ssl_agent.py:47-51 | every key in the dictionary comes from some pair, with that pair's value |
| SslAgent.IssuerString | agents/ssl_agent.py:53-56 | the common name when the organisation is empty; otherwise a string that starts with the organisation and ends with ")" |
| SslAgent.ApplyRules | agents/ssl_agent.py:58-87 | the issuer rule (0.3 iff suspicious, one finding either way), the age rules and the duration rule, each adding its amount and its finding |
| SslAgent.RulesNonNegative | agents/ssl_agent.py:58-87 | every rule adds a non-negative amount |
| SslAgent.ScoreParts | agents/ssl_agent.py:58-97 | the score is 0.3 for a suspicious issuer, plus 0.5 under seven days of age or else 0.2 under thirty, plus 0.1 for at most ninety days of validity; at most 0.9, so the clamp never bites |
| SslAgent.IssuerFindingFirst | agents/ssl_agent.py:58-87 | the findings start with exactly one issuer finding, a warning iff the issuer is suspicious, and number one to three |
| SslAgent.NoRecord | agents/ssl_agent.py:20-94 | no URL, an empty host name, a failed handshake, or a certificate date that is missing or that `strptime` rejects gives nothing |
| SslAgent.MissingCertificate | agents/ssl_agent.py:38-44 | a host presenting no certificate gets 0.8 and "Phishing" with one finding |
| SslAgent.ScoredCertificate | agents/ssl_agent.py:97-111 | a scored certificate has a score in [0, 0.9]; "Phishing" iff > 0.6, the middle word iff in (0.3, 0.6], the legitimate word iff <= 0.3 |
| SslAgent.VerdictThresholds | agents/ssl_agent.py:99-104 | the same thresholds, with Portuguese words for "PT" and English words otherwise |
| SslAgent.NewFromFreeIssuer | agents/ssl_agent.py:58-100 | a certificate under a week old from a suspicious issuer scores at least 0.8, "Phishing" |
| SslAgent.RecentShortTrusted | agents/ssl_agent.py:77-100 | with exact arithmetic a recent, short certificate from a trusted issuer scores 0.3, "Legítima" (see Left out: Python's floats give "Suspeito") |
| SslAgent.LetsEncryptIsSuspicious | agents/ssl_agent.py:56-58 | an issuer whose organisation is Let's Encrypt is suspicious |
| SslAgent.Days | agents/ssl_agent.py:72-83 | `timedelta.days` is the whole number of days rounded down, negative for a date in the future |
| SslAgent.ReadDate | agents/ssl_agent.py:68-69 | a date is read iff the field is present and `strptime` accepts it, and it is the parsed value |
| SslAgent.Flatten | agents/ssl_agent.py:48-49 | definition: the items of the issuer's RDNs, one RDN after the other |
| SslAgent.MapOf | agents/ssl_agent.py:49-51 | definition: each item that is a pair stores its value under its key, in order |
| SslAgent.IssuerMap | agents/ssl_agent.py:47-51 | definition: the dictionary built from the flattened RDNs |
| SslAgent.IsSuspicious | agents/ssl_agent.py:58 | definition: the issuer string contains one of the four suspicious issuer names |
| SslAgent.RulesOver | agents/ssl_agent.py:58-87 | definition: the issuer rule, the under-seven-days and under-thirty-days age rules, and the short-duration rule, in that order |
| SslAgent.FeaturesOf | agents/ssl_agent.py:53-83 | definition: the issuer string, the certificate's age in whole days and its duration in whole days |
| SslAgent.Verdict | agents/ssl_agent.py:99-104 | definition: "Phishing" above 0.6, the middle word above 0.3, otherwise the legitimate word, in the chosen language |
| SslAgent.Expected | agents/ssl_agent.py:16-112 | definition: nothing for no host or an exception, the missing-certificate record, or the scored certificate |
| LlmClient.RenderPrompt | agents/llm_client.py:87-89 | the substitution loop produces the template with each key's placeholder replaced by its value, key by key in order |
| LlmClient.NoPlaceholders | agents/llm_client.py:88-89 | a template containing no key's placeholder renders to itself; in particular, no variables leave it unchanged |
| LlmClient.AbsentKey | agents/llm_client.py:88-89 | a key whose placeholder does not occur in the text so far changes nothing |
| LlmClient.LaterKeysSeeEarlierValues | agents/llm_client.py:88-89 | keys apply to the already-substituted text: a value holding a later key's placeholder is substituted too |
| LlmClient.ReplaceWhole | agents/llm_client.py:89 | replacing a whole text gives the replacement |
| LlmClient.ModelChoice | agents/llm_client.py:38-85 | OpenAI iff the preference is "openai", or there is none and USE_OPENAI is set; then GPT-4o under the key "openai"; otherwise the default model without an image, and "llava" with a 2048 context with one |
| LlmClient.ContextSize | agents/llm_client.py:54 | the Ollama context is 2048 iff the model name contains "llava", otherwise 1024 |
| LlmClient.NewHandle | agents/llm_client.py:44-57 | the new handle is OpenAI iff OpenAI was chosen, at temperature 0, with GPT-4o or the given model |
| LlmClient.Validated | agents/llm_client.py:93-120 | an answer is returned only when the call returned a result with score in [0, 1]; an exception gives nothing |
| LlmClient.AnswersInRange | agents/llm_client.py:114-116 | every answer has a score in [0, 1] and exactly the keys result, score and summary |
| LlmClient.Placeholder | agents/llm_client.py:89 | `{{key}}` is the key with four braces around it |
| LlmClient.Client.constructor | agents/llm_client.py:29-33 | empty caches, then the system prompt loaded through the prompt cache (cached iff the file exists) |
| LlmClient.Client.LoadPrompt | agents/llm_client.py:65-77 | a cached name is returned from the cache unchanged; a file that exists is read and cached; a missing file gives "" and is not cached; nothing else changes |
| LlmClient.Client.GetLlm | agents/llm_client.py:35-63 | the handle under the call's key; created and cached only when the key is absent, the cache otherwise unchanged |
| LlmClient.Client.Analyze | agents/llm_client.py:79-120 | the call's key is cached afterwards (created iff absent), the prompt file is cached iff it exists, and the answer is the validated result of invoking that handle with the system prompt and the rendered template |
| LlmClient.IsOpenAi | agents/llm_client.py:38 | definition: the preference is "openai", or there is none and the global setting is on |
| LlmClient.ModelName | agents/llm_client.py:85 | definition: "gpt-4o" for OpenAI, otherwise the default model, or "llava" with an image |
| LlmClient.ModelKey | agents/llm_client.py:39 | definition: "openai" for OpenAI, otherwise the model name |
| LlmClient.NumCtx | agents/llm_client.py:54 | definition: 2048 when the model name contains "llava", otherwise 1024 |
| LlmClient.ReadFile | agents/llm_client.py:69-77 | definition: the file's content, or "" when there is no such file |
| LlmClient.Rendered | agents/llm_client.py:87-89 | definition: the template with each key's placeholder replaced by its value, key by key in order |
| LlmClient.Client.Valid | agents/llm_client.py:59-73 | definition: every cached prompt is its file's content, and every cached handle is the one created for its key |
| Scoring.Step | agents/url_agent.py:24-26 | one more rule adds its amount and its finding exactly when it fires |
| Scoring.NotesCount | agents/url_agent.py:22-53 | each fired rule reports exactly one finding |
| Scoring.NotesAreFiredFindings | agents/url_agent.py:22-53 | the findings are exactly those of the fired rules |
| Scoring.GainedBounds | agents/url_agent.py:22-53 | with non-negative amounts the sum lies between 0 and the sum of all amounts |
| Scoring.GainedGrows | agents/url_agent.py:22-53 | later rules never lower the running score |
| Scoring.FiredRuleCounts | agents/url_agent.py:22-53 | a fired rule's amount is part of the total |
| Scoring.TwoFired | agents/url_agent.py:22-53 | two fired rules both count towards the total |
| Scoring.NotesGrow | agents/url_agent.py:22-53 | later rules only append to the earlier findings |
| Scoring.NothingFires | agents/url_agent.py:19-20 | when no rule fires the score stays 0 and the findings empty |
| Scoring.Split | agents/html_agent.py:33-66 | scoring two rule lists one after the other is scoring their concatenation |
| Scoring.Concat | agents/html_agent.py:33-66 | rules after a list only add to its score and append to its findings |
| Scoring.Extend | agents/html_agent.py:33-66 | the first rules of a longer list score as they do alone |
| Scoring.Clamp | agents/url_agent.py:56 | `min(max(x, 0), 1.0)` lies in [0, 1], is x when x does, and is 1.0 above |
| Urls.Netloc | agents/url_agent.py:15-16 | the network location holds no '/', '?' or '#' and is no longer than the URL |
| Urls.HttpNetloc | agents/url_agent.py:15-16 | the network location of `http://host` is host |
| Urls.HttpNetlocBeforePath | agents/url_agent.py:15-16 | the network location of `http://host` followed by a path, query or fragment is host |
| Urls.NetlocOfLowerIsLower | agents/html_agent.py:45-48 | a lower-cased action has a lower-case host |
| Urls.Hostname | agents/ssl_agent.py:23-24 | the host name has no ':' and is a prefix of the network location |
| Urls.IndexFrom | agents/ssl_agent.py:24 | the first ':' at or after a position, or the end |
| Urls.SchemeEnd | agents/url_agent.py:15 | the scheme, when present, ends with ':' |
| Urls.AuthorityEnd | agents/url_agent.py:15-16 | the network location runs up to the first '/', '?' or '#' |
| Urls.DigitsEnd | agents/url_agent.py:23 | a run of ASCII digits is read to its end |
| Urls.DottedQuadExamples | agents/url_agent.py:23-24 | "192.168.1.1" matches the dotted-quad pattern; "1.2.3" and "legit.com" do not |
| Urls.IsDottedQuad | agents/url_agent.py:23 | definition: the whole host is four runs of one to three ASCII digits joined by dots |
| Urls.QuadFrom | agents/url_agent.py:23 | definition: the remaining groups of a dotted quad, from a given position |
| Text.Strip | agents/text_agent.py:26 | `strip()` is no longer than the text and neither starts nor ends with whitespace |
| Text.ToLower | agents/url_agent.py:50 | each character is lowered on its own, to a single character |
| Text.LowerConcat | agents/url_agent.py:50 | lowering a concatenation lowers each part |
| Text.LowerIsLower | agents/html_agent.py:45 | a lower-cased text is lower case |
| Text.Occurring | agents/url_agent.py:50 | the keywords found are exactly the listed keywords that occur in the text, and no more than the list |
| Text.OccurringDistinct | agents/url_agent.py:50 | from a list without repeats, no keyword is found twice |
| Text.DistinctTail | agents/unified_agent.py:77 | the tail of a list without repeats has none and does not hold the head |
| Text.OccurringSnoc | agents/url_agent.py:50 | the comprehension keeps list order: one more listed keyword is appended at the end exactly when it occurs |
| Text.OccurringCount | agents/unified_agent.py:77 | from a list without repeats, the number of keywords found is the number of distinct listed keywords occurring in the text |
| Text.DistinctCard | agents/unified_agent.py:77 | a list without repeats has as many elements as its set |
| Text.Distinct | agents/unified_agent.py:10-17 | definition: no element occurs twice |
| Text.CountChar | agents/url_agent.py:34-44 | `count(c)` is the number of occurrences of c (its multiplicity in the text), so at most the length, and zero iff c does not occur |
| Text.ContainsTransitive | agents/url_agent.py:50 | a text containing a keyword contains every part of it |
| Text.ContainsChar | agents/text_agent.py:41 | a one-character string occurs iff the character does |
| Text.ReplaceAbsent | agents/llm_client.py:89 | replacing a pattern that does not occur changes nothing |
| Text.ReplaceBySelf | agents/llm_client.py:89 | replacing a pattern by itself changes nothing |
| Text.Join | agents/url_agent.py:53 | joining no parts gives "", one part gives that part |
| Text.NatToString | agents/ssl_agent.py:75 | `str(n)` is a non-empty string of digits |
| Text.JoinSnoc | agents/url_agent.py:53 | joining one more part appends the separator and then that part, so the separator stands between every two neighbouring parts |
| Text.NatToStringValue | agents/ssl_agent.py:75 | the digits of `str(n)` read back as n |
| Text.DigitsValue | agents/ssl_agent.py:75 | definition: the value of a digit string, read from the left |
| Text.IntToString | agents/ssl_agent.py:75-86 | `str(i)` starts with '-' iff i is negative, and the digits after any sign read back as the magnitude of i |
| Text.TrimStart | agents/text_agent.py:26 | the result is a suffix of the text that does not start with whitespace, and every character dropped is whitespace |
| Text.TrimEnd | agents/text_agent.py:26 | the result is a prefix of the text that does not end with whitespace, and every character dropped is whitespace |
| Text.LowerChar | agents/url_agent.py:50 | an ASCII capital becomes its small letter, the KELVIN SIGN becomes 'k', and a character that changes lands in Latin-1 |
| Text.IsSpace | agents/text_agent.py:26 | definition: the characters `str.isspace()` accepts |
| Text.Contains | agents/url_agent.py:50 | definition: `sub in s`, an occurrence at some position |
| Text.StartsWith | agents/html_agent.py:46 | definition: `s.startswith(p)`, p is a prefix of s |
| Text.ReplaceAll | agents/llm_client.py:89 | definition: `s.replace(pat, rep)`, every non-overlapping occurrence from the left replaced |

## Left out

- Floating point. Scores are exact reals. The source computes with Python floats and rounds with `round(…, 3)` where it reports.
  - The unified fallback's amounts agree with exact arithmetic once rounded to three places.
  - The other detectors and the consolidation can differ from exact arithmetic in the last bits. The model does not capture this.
- SslAgent.RecentShortTrusted: exact arithmetic gives 0.3 and "Legítima". Python computes `0.2 + 0.1 = 0.30000000000000004`, which is above 0.3, so the source answers "Suspeito" (or "Suspect") while reporting a rounded score of 0.3. The case is a trusted issuer, an age of 7 to 29 days and a validity of at most 90 days.
- SslAgent.ScoredCertificate: its verdict bands hold for exact scores only, because of the same float sum.
- Orchestrator.PermutationInvariant: holds for exact sums. Float addition is not associative, so the source's score can differ in the last bits between orders, and a sum sitting exactly on 0.4 or 0.6 could change band.
- TextAgent.Percent: renders the exact value times 100 with round-half-to-even. Python multiplies the float by 100 first, so values within a rounding error of a tie can print differently.
- `round(score, 3)` in the unified and SSL agents is not modelled: the score is the exact capped or clamped value.
- Urls.Netloc: a simplified `urlsplit`. It ignores:
  - the removal of tabs and newlines;
  - the stripping of leading control characters;
  - the bracket checks for IPv6 hosts, and the NFKC check on the network location (`_checknetloc`);
  - the scheme-specific caching.
  Both checks raise `ValueError` in the source, for example on `http://[x`. Nothing catches it in the URL detector (`agents/url_agent.py:15`), so `analyze_full` raises. The SSL detector calls `urlparse` outside its `try` (`agents/ssl_agent.py:23`), so its `analyze` raises too. In the HTML detector the error is caught (`agents/html_agent.py:78`) and gives "Error". The model returns a record in all of these cases.
- Text.ToLower: lowers only the characters whose lower case is one ASCII or Latin-1 character. These are the ASCII and Latin-1 capitals, and U+0178, U+1E9E, U+212A (KELVIN SIGN, to 'k') and U+212B. Other capitals, such as Greek or Cyrillic, are kept as they are. Python lowers them too, never into a character of the keyword lists or of "http", so keyword and scheme tests agree. The model also keeps U+0130 (capital I with dot above), which Python lowers to two characters, 'i' and U+0307, so the lowered text can be longer in the source. Results differ in these places:
  - A keyword ending in 'i' can be found in the source and not in the model. The unified detector's "clique aqui" is one, found in "clique aqu" followed by U+0130 (`agents/unified_agent.py:76`).
  - At `agents/html_agent.py:45-48` the source lowers the form's action and compares its host with the unlowered page host. The source's lowered action holds 'i' and U+0307 where the model's holds U+0130. So a page host spelled with 'i' and U+0307 matches in the source and not in the model.
  - The same host comparison (`agents/html_agent.py:45-50`) differs for any host with Greek, Cyrillic or other capitals outside the set above. For the action `HTTP://ПРИМЕР.РФ/login` on the page `http://пример.рф`, the source lowers the action's host to `пример.рф`, finds it equal to the page's and adds nothing. The model's `HtmlAgent.ActionDomain` keeps `ПРИМЕР.РФ`, so `HtmlAgent.PostsTo` fires and the page gains 0.5 and "Phishing".
  - The external-form finding (`agents/html_agent.py:52`) names the lowered action host. For a host with such capitals the source's finding shows it in lower case, and the model's keeps the capitals.
- The regular expression `https?://[^\s]+` is modelled by a direct predicate; `[^\s]` uses the same whitespace set as `str.strip()`.
- The outside world is left as parameters, each of which may fail as the source allows:
  - `requests.get` in `_fetch_html`;
  - BeautifulSoup, as a `Page` of findings: password input, form actions, style attributes, link hrefs;
  - the socket and TLS handshake;
  - `strptime` and `datetime.utcnow()`;
  - the transformers pipeline and its loading;
  - LangChain's `invoke`;
  - the prompt files.
- Logging is left out.
- `LLMClient` handles are values describing the model and its settings, not `ChatOpenAI`/`ChatOllama` objects. The `structured` wrapper is folded into the `Invoker`.
- The base64 encoding of the image and the message layout are not modelled: the image bytes are passed as they are.
- Exceptions are modelled only where the source catches them or lets them decide the outcome:
  - a prompt file that cannot be read for another reason than being missing is not modelled;
  - exceptions raised while creating a handle are folded into the invoker's failure, which the source catches in the same `try`.
- The `agent_results` strings built in `_consolidate` (`agents/orchestrator.py:78`) are never read and are left out.
- The context JSON of `chat_explanation` is a parameter: `json.dumps` is not modelled.
- `LLMClient.chat_with_rag`, `agents/rag_manager.py`, `app.py`, `static/script.js` and the scripts that call live models are not part of this model.
- `UnifiedTextHTMLAgent` and `SSLAnalysisAgent` are not called by the orchestrator, which imports only the URL, text, HTML and vision detectors. They are modelled on their own.
- The detectors' `name` attributes are constants, and `NLPTextAgent`'s model name is a parameter.
