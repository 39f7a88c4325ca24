# Customer churn-risk scorer, modelled in Dafny

The customer-churn-predictor computes a heuristic churn-risk score from seven
customer attributes (age, tenure in months, monthly charges, support calls
this month, contract type, payment method, customer type) and returns a text
report with a risk level, the score out of 100, a churn-probability range and
three retention actions. Everything interesting happens in one pure function,
`predict_churn_risk`; this project models it as Dafny functions and proves
its properties as lemmas.

- `text.dfy`, module `Text`: the decimal form of integers as Python's `str()`
  prints them, with its parser, and the line structure of multi-line text
  (joining with and splitting at newline characters), each proved against its
  inverse.
- `churn_risk.dfy`, module `ChurnRisk`: the banded contributions, the three
  weight tables with their defaults, the sum, the clamp to [0, 100], the
  four tiers, the report template, the error channel, and the lemmas.

How the source is represented:

- Age, tenure and support calls are `int`; monthly charges are `real` (they
  are only compared with 70 and 100, so no rounding is involved).
- The weight tables are `map<string, int>` keyed by the exact strings the
  form sends ("Two-Year", "Credit Card", "Young Professional", ...), read with
  a default for unknown keys, as a dictionary's `get` does.
- The `try`/`except` of the function becomes an `Outcome`: `Ok(report)` or
  `Err(message)`. `Respond` is the handler: it renders the report, or puts
  "Error: " before the message. With typed inputs nothing in the guarded
  block can fault, so `PredictChurnRisk` always hands `Respond` an `Ok`.
- The report text is the template's lines joined with newlines. The integers
  (score, age, tenure, calls) are printed in decimal as Python prints them;
  the monthly charges enter as already-printed text (`chargesText`).
- Each tier's recommendation text is built as its three bullet lines joined
  with newline characters, which is the three-line literal of the source.
- The emoji in the level labels and headings are written as Unicode escapes
  of the same code points.

The weight tables are keyed by the strings the form sends, not by
enumeration names. The clamp is the only normalisation of the score.

## Model

| member | source | states |
|---|---|---|
| `ChurnRisk.AgeContribution` | app.py:13-15 | under 25 adds 25, 25..34 adds 15, over 60 adds 10, 35..60 adds 0 (first match wins, so 25 gets 15) |
| `ChurnRisk.TenureContribution` | app.py:18-20 | tenure under 6 adds 30, 6..11 adds 20, 12..23 adds 10, 24 and more adds 0 |
| `ChurnRisk.ChargesContribution` | app.py:23-24 | charges above 100 add 20, above 70 up to 100 add 15, 70 or less add 0 |
| `ChurnRisk.SupportCallsContribution` | app.py:27 | a non-negative number of calls adds nothing negative, and at most 10 calls (the form's limit) add at most 80 |
| `ChurnRisk.WeightOr` | app.py:30-39 | a known key gives its table weight, and an unknown key gives the default, as a dictionary's `get` does |
| `ChurnRisk.ContractWeight` | app.py:30-31 | Monthly 25, Quarterly 15, Annual 5, Two-Year 0; any other contract type 15 |
| `ChurnRisk.PaymentWeight` | app.py:34-35 | Electronic 0, Credit Card 5, Bank Transfer 10, Manual 20; any other method 10 |
| `ChurnRisk.TypeWeight` | app.py:38-39 | Young Professional -5, Family User -10, Senior Citizen 5, Student 15, Business User -15; any other type 0 |
| `ChurnRisk.RawScore` | app.py:10-39 | the sum of the seven contributions lies within 15 below and 135 above eight times the support calls |
| `ChurnRisk.Clamp` | app.py:42 | the result is in [0, 100], equals its input inside that range, 0 below it and 100 above it |
| `ChurnRisk.TierOf` | app.py:45-57 | CRITICAL iff score >= 70, HIGH iff 50..69, MEDIUM iff 30..49, LOW iff below 30 |
| `ChurnRisk.Label` | app.py:46-58 | each tier's level text is a single line |
| `ChurnRisk.Probability` | app.py:47-59 | each tier's probability range is a single line |
| `ChurnRisk.Bullets` | app.py:48-60 | every tier has exactly three recommendation lines, each starting with the bullet mark and holding no newline |
| `ChurnRisk.Recommendation` | app.py:48-60 | each tier's recommendation text splits into exactly its three bullet lines |
| `ChurnRisk.ReportFor` | app.py:45-60 | score >= 70 gives CRITICAL with "85-100%", 50..69 HIGH with "65-84%", 30..49 MEDIUM with "35-64%", below 30 LOW with "0-34%", plus that tier's recommendation |
| `ChurnRisk.Assess` | app.py:8-60 | the final score is in [0, 100] and equals the clamped sum, and the whole report is determined by that score |
| `ChurnRisk.Respond` | app.py:62-86 | the answer starts with "Error: " exactly when the guarded block failed, and then carries the fault's message |
| `ChurnRisk.PredictChurnRisk` | app.py:5-86 | for typed inputs the scorer's answer is the rendered report and never starts with "Error: " |
| `ChurnRisk.Render` | app.py:62-83 | the report text opens with a newline (the blank first line of the template) |
| `ChurnRisk.SummaryLines` | app.py:62-68 | the opening section is seven lines (in the body: blank, heading, blank, level, score, probability, blank) |
| `ChurnRisk.ProfileLines` | app.py:69-78 | the profile section is ten lines (in the body: heading, seven echoed fields, blank, strategy heading) |
| `ChurnRisk.ProfileField` | app.py:70-76 | an echoed field line has no newline when its name and value have none |
| `ChurnRisk.HeadLines` | app.py:62-78 | the template has seventeen lines before the recommendation text |
| `ChurnRisk.HeadLinesHaveNoNewline` | app.py:62-78 | no template line before the recommendations holds a newline when the echoed text fields hold none |
| `ChurnRisk.ReportTextLines` | app.py:62-83 | read line by line, the report is the seventeen head lines, the tier's three bullets and four closing lines: 24 lines |
| `ChurnRisk.ScoreIsFifthLine` | app.py:66 | the fifth template line is the score prefix, the score in decimal and "/100" |
| `ChurnRisk.ScoreLineRoundTrip` | app.py:66 | reading the printed score line back yields the same score, negative or not |
| `ChurnRisk.ScoreLineShowsScore` | app.py:62-83 | the fifth line of the scorer's answer reads back as the final score |
| `ChurnRisk.InFormRange` | app.py:94-97 | inside the slider ranges the sum before normalisation lies in [-15, 215] |
| `ChurnRisk.TierBoundaries` | app.py:45-57 | 70, 50 and 30 fall in the higher tier; 69, 49 and 29 in the lower |
| `ChurnRisk.AgeBoundaries` | app.py:13-15 | ages 24/25, 34/35 and 60/61 fall on the sides of each band boundary as the ordered checks decide |
| `ChurnRisk.TenureNonIncreasing` | app.py:18-20 | a longer tenure never adds more risk |
| `ChurnRisk.ChargesNonDecreasing` | app.py:23-24 | higher charges never add less risk |
| `ChurnRisk.SupportCallStep` | app.py:27 | one more support call adds exactly 8 before normalisation |
| `ChurnRisk.SupportCallsMonotone` | app.py:27-42 | more support calls, all else equal, never lower the final score |
| `ChurnRisk.SameScoreSameReport` | app.py:44-60 | two profiles with the same final score get the same tier, probability and recommendation |
| `ChurnRisk.ClampReachedInFormRange` | app.py:10-42 | within the form's ranges the sum reaches 215 and -15, and the clamp turns these into 100 and 0 |
| `ChurnRisk.FormDefaultsExample` | app.py:94-115 | the form's initial values score 66, a HIGH risk with "65-84%" |
| `Text.Decimal` | app.py:66 | the decimal text is non-empty, all digits, has a leading zero only for 0, and is one digit exactly below 10 |
| `Text.ParseDecimalOfDecimal` | app.py:66 | parsing the decimal text of n gives back n |
| `Text.IntToDecimal` | app.py:70-71 | the text of an integer (age and tenure here; also the score at line 66 and the calls at line 73) is a minus sign exactly for negatives followed by digits, on one line |
| `Text.IntToDecimalRoundTrip` | app.py:70-71 | parsing the text of any integer gives it back |
| `Text.JoinLines` | app.py:48-83 | the first line starts the joined text, and when there is a second line a newline follows the first |
| `Text.NewlineIndex` | app.py:62-83 | the index found is the first newline, or the length when there is none |
| `Text.SplitLines` | app.py:62-83 | splitting gives at least one line and no line holds a newline |
| `Text.SplitLinesOfJoinLines` | app.py:48-60 | splitting lines joined by newlines gives back the lines when none holds a newline |
| `Text.JoinLinesOfSplitLines` | app.py:48-60 | joining the lines of any text gives back the text |
| `Text.JoinLinesAppend` | app.py:62-83 | joining two runs of lines puts exactly one newline between them |
| `Text.SplitLinesOfSplicedText` | app.py:62-83 | a multi-line text put in one line's place splits into the surrounding lines with its own lines in between |

## Left out

- The Gradio form, its layout and theme, and the process launch (app.py:88-127): presentation with no logic of its own. The slider ranges appear only as the `InFormRange` predicate used in the worked examples.
- The pandas and numpy imports (app.py:2-3): never used.
- How Python prints the monthly charges as a float (`${monthly_charges}`): the model takes that text as the parameter `chargesText`.
- Python's dynamic typing: the form's sliders may deliver floats for age, tenure and support calls; the model types them as integers, so a fractional age or call count (and a score printed as a float) is not represented.
- ChurnRisk.Evaluate: the guarded block (app.py:8-83) has no member of its own. It computes the report and renders it, and in Python it faults only when a dynamically typed value breaks a comparison (app.py:13-24), the multiplication (app.py:27), a dictionary lookup with an unhashable key (app.py:31-39) or an addition. With typed inputs no such value exists, so no input reaches the fault branch. `Respond` still models the handler (app.py:85-86) for an `Err` outcome, but nothing in the model produces one, and the text of Python's exception messages is not modelled.
