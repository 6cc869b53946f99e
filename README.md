# Subscriptions Hub: the insights summary, in Dafny

The Subscriptions Hub backend stores subscription records: a service name, an
amount, a billing cycle and a few informational fields. It offers one piece
of real logic, the insights summary behind `GET /api/insights/summary`
(`monthly_summary` in main.py). The summary reads every stored record and
does the following:

* It normalises each record's name: the name is trimmed of surrounding
  whitespace and lower-cased. A missing name counts as the empty string.
* It skips records whose normalised name is empty.
* It converts every other record's amount to a monthly-equivalent cost.
  An annual amount is divided by 12, and a weekly amount is multiplied by
  52/12. Any other cycle string passes the amount through unchanged.
* It adds that cost to a grand total. It also adds it to a per-service
  running total keyed by the normalised name, which starts at 0.
* It counts, in a second pass, how often each non-empty normalised name
  occurs. It reports as duplicates the names that occur more than once.

The project models that computation and proves what it promises.

* `text.dfy`, module `Text`:
  * Python's argument-less `str.strip()`, with exactly the whitespace set of
    `str.isspace()`.
  * `str.lower()`, for ASCII letters.
  * The grouping key `Normalise`, which is strip then lower.
  * Lemmas characterising what stripping leaves, and that stripping is
    idempotent and ignores padding.
  * Lemmas that stripping commutes with lower-casing, and the shape of a
    grouping key.
* `billing.dfy`, module `Billing`: the conversion of an amount to a
  monthly-equivalent cost by billing cycle.
* `insights.dfy`, module `Insights`:
  * The record (`Record`, with each field optional, as in a stored
    document) and the `Summary`.
  * A specification `Summarize` over the sequence of records.
  * The summary itself as imperative code: `AccumulateCosts` (the first
    loop) and `CountNames` (the second loop), each proved against the
    specification by loop invariants, and `MonthlySummary`, which calls
    them and whose contract follows from theirs.
* `summary_properties.dfy`, module `SummaryProperties`, with the properties
  of the specification:
  * the services keys are exactly the non-empty keys;
  * the grand total is the sum of the per-service totals;
  * a name is a duplicate exactly when two records carry it;
  * blank records are ignored;
  * totals are non-negative;
  * names differing in case and padding share a bucket;
  * the record order does not matter;
  * the worked Netflix/Spotify example.

Values are exact reals: the model describes the summary before the final
rounding to two decimals.

Two points where the code decides what the model does:

* The billing cycle is meant to be one of monthly, annual or weekly, and
  schemas.py:54 declares it as such a `Literal`. The create endpoint's own
  input model, however, leaves `billing_cycle` an unconstrained string
  (main.py:25), and the summary does not check it. So the model accepts
  any cycle string and takes the pass-through branch for it.
* The per-service total of a name could be read as starting at the cost
  of its first record. The code starts it at 0 with `setdefault(name, 0)`
  and then adds the cost. The two agree (`Insights.SetDefaultThenAdd`), and
  the model follows the code.

## Model

| member | source | states |
|---|---|---|
| Text.IsSpace | main.py:111 | (definition) the characters that `str.isspace()` accepts and an argument-less `strip()` removes; see the strip lemmas that follow |
| Text.TrimStart | main.py:111 | (definition) the leading half of `strip()`; see Text.TrimStartIsSuffix |
| Text.TrimEnd | main.py:111 | (definition) the trailing half of `strip()`; see Text.TrimEndIsPrefix |
| Text.Strip | main.py:111 | (definition) `.strip()` with no argument; see Text.StripAt and Text.StripUnique |
| Text.IsUpper | main.py:111 | (definition) the capital letters `.lower()` maps, here ASCII 'A'..'Z' only; see the Text.Lower line under Left out |
| Text.LowerChar | main.py:111 | (definition) `.lower()` on one character: an ASCII capital becomes its small letter, any other character is kept. Other cased letters are therefore left alone, unlike in Python, where `'É'.lower()` is `'é'` |
| Text.Lower | main.py:111 | (definition) `.lower()`, each character lower-cased on its own by LowerChar; see Text.LowerIdempotent and Text.StripLowerCommute |
| Text.Normalise | main.py:111 | (definition) the grouping key, strip then lower; see Text.NormaliseShape |
| Text.TrimStartIsSuffix | main.py:111 | `lstrip` leaves a suffix of the name, everything it drops is whitespace, and what is left does not start with whitespace |
| Text.TrimEndIsPrefix | main.py:111 | `rstrip` leaves a prefix, drops only whitespace, and what is left does not end with whitespace |
| Text.StripAt | main.py:111 | `strip()` returns an infix `s[i..j]` with only whitespace outside it, and no whitespace at either end |
| Text.StripUnique | main.py:111 | any such whitespace-bounded infix is the one `strip()` returns, so StrippedAt characterises `strip()` completely |
| Text.StripEmptyIffBlank | main.py:111-113 | a name strips to the empty string exactly when it is whitespace only (the `if not name: continue` case) |
| Text.StripIdempotent | main.py:111 | stripping twice is stripping once |
| Text.StripIgnoresPadding | main.py:111 | surrounding a name with whitespace on either side does not change what it strips to |
| Text.StripLowerCommute | main.py:111 | lower-casing and stripping commute |
| Text.LowerIdempotent | main.py:111 | lower-casing twice is lower-casing once |
| Text.NormaliseShape | main.py:111-113 | a grouping key is no longer than the name, has no ASCII capital letters, has no surrounding whitespace, and is empty exactly when the name is whitespace only |
| Text.NormaliseIdempotent | main.py:111 | a grouping key is its own grouping key |
| Text.SameKeyUpToCaseAndPadding | main.py:111 | names that differ only in letter case and surrounding whitespace get the same key |
| Billing.MonthlyCost | main.py:114-120 | annual: 12 × monthly = amount; weekly: 12 × monthly = 52 × amount; any other cycle string: monthly = amount; non-negative amounts give non-negative costs; the cost is 0 exactly when the amount is |
| Billing.MonthlyCostLinear | main.py:115-120 | for a fixed cycle the conversion is linear: scaling the amount scales the monthly cost |
| Insights.NameOf | main.py:111 | (definition) `d.get("name") or ""` on a name stored as a string or missing: a missing or empty name reads as "" |
| Insights.AmountOf | main.py:109 | (definition) `d.get("amount", 0)`: a missing amount reads as 0; see SummaryProperties.MissingFieldDefaults |
| Insights.CycleOf | main.py:110 | (definition) `d.get("billing_cycle", "monthly")`: a missing cycle reads as "monthly"; see SummaryProperties.MissingFieldDefaults |
| Insights.ItemOf | main.py:108-120 | (definition) what one loop iteration sees of a record: its grouping key and its monthly cost; see SummaryProperties.ItemsAt |
| Insights.Items | main.py:108-120 | (definition) the keys and monthly costs of all records, in order; see SummaryProperties.ItemsAppend |
| Insights.Counted | main.py:112-113 | (definition) the `if not name: continue` skip of both loops, reversed: a record takes part exactly when its key is non-empty; see SummaryProperties.UncountedItemIgnored |
| Insights.Under | main.py:122-123 | (definition) a record is filed under `n` when it is not skipped and its key is `n`; see Insights.Snoc |
| Insights.AmountsNonNegative | main.py:23 | (definition) every stored amount is non-negative, the `ge=0` constraint on `amount`; see SummaryProperties.SummaryNonNegative |
| Insights.Key | main.py:111 | (definition) a record's grouping key, Normalise of its name; see SummaryProperties.ServiceKeysNormalised |
| Insights.Cost | main.py:114-120 | (definition) a record's monthly-equivalent cost, MonthlyCost of its amount and cycle; see Billing.MonthlyCost |
| Insights.AddCost | main.py:122-123 | (definition) one update of `by_service`; see Insights.SetDefaultThenAdd and SummaryProperties.AddCostSum |
| Insights.AddOne | main.py:130 | (definition) one update of `name_counts`, `get(n, 0) + 1`; see Insights.CountRecord |
| Insights.Total | main.py:121 | (definition) `total_monthly` over the counted records; see SummaryProperties.TotalIsSumOfServices |
| Insights.Names | main.py:112-113 | (definition) the non-blank keys of the records; see SummaryProperties.NamesExactly |
| Insights.ServiceSum | main.py:122-123 | (definition) one `by_service` entry: the costs of the records under a key; see Insights.Snoc |
| Insights.Count | main.py:126-130 | (definition) one `name_counts` entry: the records under a key; see SummaryProperties.CountTwice |
| Insights.Services | main.py:122-123 | (definition) `by_service`, one entry per name; see SummaryProperties.ServiceKeysExactly |
| Insights.NameCounts | main.py:125-130 | (definition) `name_counts`, one entry per name; see Insights.CountNames |
| Insights.Duplicates | main.py:131 | (definition) the names counted more than once; see SummaryProperties.DuplicateIffTwoRecords |
| Insights.Summarize | main.py:104-136 | (definition) the summary of a sequence of records, before rounding; see Insights.MonthlySummary and the SummaryProperties lemmas |
| Insights.SumValues | main.py:121-123 | (definition, ghost) the sum of a map's values, used to state that `total_monthly` is the sum of `by_service`; see SummaryProperties.TotalIsSumOfServiceValues |
| Insights.SetDefaultThenAdd | main.py:122-123 | `setdefault(name, 0)` followed by `+= monthly` is AddCost: the key's old total (0 if new) plus the cost, every other entry unchanged |
| Insights.Snoc | main.py:121-123 | appending a record adds its key (if non-blank) to the names, and adds its cost and one occurrence under that key only |
| Insights.ServicesSnoc | main.py:122-123 | appending a record changes the per-service totals exactly as one iteration of the first loop changes `by_service` |
| Insights.NameCountsSnoc | main.py:130 | appending a record changes the name counts exactly as one iteration of the second loop changes `name_counts` |
| Insights.AccumulateStep | main.py:108-123 | one iteration of the first loop takes the specification of the first i records to that of the first i + 1 |
| Insights.CountStep | main.py:126-130 | one iteration of the second loop takes the name counts of the first i records to those of the first i + 1 |
| Insights.AddRecord | main.py:109-123 | a record with a blank key leaves the total and the map alone; any other adds its cost to the total and to its key's entry, and the map's keys grow by exactly that key |
| Insights.AccumulateCosts | main.py:105-123 | the first loop yields the grand total and the per-service totals of the specification |
| Insights.CountRecord | main.py:127-130 | a blank key leaves the counts alone; any other key's count goes up by one, starting from 1 for a new key |
| Insights.CountNames | main.py:125-130 | the second loop yields, for every non-blank key, the number of records carrying it |
| Insights.MonthlySummary | main.py:104-136 | the summary equals the specification `Summarize`; the duplicates are services keys; an empty input gives total 0, no services and no duplicates |
| SummaryProperties.ItemsAppend | main.py:108 | the per-record view of two runs of records is the concatenation of their views |
| SummaryProperties.NamesExactly | main.py:111-113 | a key is a name of the records exactly when it is non-blank and some record carries it |
| SummaryProperties.CountPositive | main.py:125-130 | a key is counted at least once exactly when it is one of the names |
| SummaryProperties.CountTwice | main.py:125-131 | a key is counted more than once exactly when two different records carry it |
| SummaryProperties.Concat | main.py:105-130 | the names, the total, each per-key sum and each count split over a concatenation of records |
| SummaryProperties.MoveToEnd | main.py:105-130 | moving one record to the end changes no aggregate |
| SummaryProperties.SumValuesRemove | main.py:121-123 | the sum of a map's values does not depend on which key is taken first |
| SummaryProperties.AddCostSum | main.py:121-123 | one step of the first loop raises the sum of `by_service`'s values by exactly the cost it adds to `total_monthly` |
| SummaryProperties.TotalIsSumOfServices | main.py:121-123 | the grand total equals the sum of the per-service totals, over any sequence of records |
| SummaryProperties.SameAggregates | main.py:122-131 | equal names, sums and counts give equal services and duplicates |
| SummaryProperties.InsertItem | main.py:105-130 | inserting one record into two sequences that agree on every aggregate keeps them in agreement |
| SummaryProperties.ServiceKeysExactly | main.py:111-123 | a name is a services key exactly when it is non-empty and some record normalises to it |
| SummaryProperties.NormalisedKey | main.py:111 | a non-empty grouping key is its own normalisation, has no ASCII capital letters and no surrounding whitespace |
| SummaryProperties.ServiceKeysNormalised | main.py:111-123 | every services key is trimmed, free of ASCII capital letters and its own normalisation |
| SummaryProperties.TotalIsSumOfServiceValues | main.py:121-134 | before rounding, the summary's grand total equals the sum of its per-service totals |
| SummaryProperties.DuplicateIffTwoRecords | main.py:125-131 | a name is a duplicate exactly when two different records normalise to it; a name carried by one record only is never a duplicate |
| SummaryProperties.BlankRecordIgnored | main.py:111-113 | a record with a missing or whitespace-only name, inserted anywhere, changes neither the total, the services nor the duplicates |
| SummaryProperties.UncountedItemIgnored | main.py:112-113 | a record with a blank key changes no part of the summary |
| SummaryProperties.ItemsNonNegative | main.py:105-123 | non-negative monthly costs give a non-negative total and non-negative per-key sums |
| SummaryProperties.SummaryNonNegative | main.py:23 | with non-negative amounts, the grand total and every per-service total are non-negative |
| SummaryProperties.TakeOut | main.py:104-131 | a record of one arrangement of the stored records occurs in any other, between a rearrangement of the rest (the step by which the summary is shown not to depend on record order) |
| SummaryProperties.ReorderItems | main.py:104-130 | rearranging the records leaves the names, the total, every per-key sum and every count unchanged |
| SummaryProperties.ItemsAround | main.py:108 | the per-record view of records placed before, after or between others is the matching concatenation of views |
| SummaryProperties.SummaryIgnoresOrder | main.py:104-131 | the summary depends only on which records are stored, not on the order in which the store returns them |
| SummaryProperties.TwoSpellingsOneBucket | main.py:111-131 | two records whose names differ only in case and padding share one services entry, holding the sum of their costs, and that name is the one duplicate |
| SummaryProperties.TwoItems | main.py:122-131 | two records under one key give one services entry holding both costs, and that key as the one duplicate |
| SummaryProperties.MissingFieldDefaults | main.py:109-110 | a missing amount costs 0, and a missing billing cycle passes the amount through |
| SummaryProperties.ThreeItems | main.py:122-131 | two records under one key and a third under another give two services entries, their total, and the first key as the one duplicate |
| SummaryProperties.StreamingScenario | main.py:104-136 | Netflix 15.99 monthly, netflix 8 weekly and Spotify 120 annual give netflix 15.99 + 8 × 52/12, spotify 10, that total, and duplicates {netflix} |
| SummaryProperties.StreamingRecords | main.py:104-136 | the same example, for records given one by one |
| SummaryProperties.StreamingKeys | main.py:111 | "Netflix" and "netflix" normalise to "netflix", and "Spotify" to "spotify" |

## Left out

- The HTTP layer is not modelled: FastAPI routes, CORS, the uvicorn start-up, and the wrapping of any exception in an HTTP 500 (main.py:10-18, 33-35, 137-145). The model takes the stored records as its input.
- `test_database`, `create_subscription` and `list_subscriptions` are not modelled. They are environment lookups, persistence calls and serialisation of store-specific types.
- `database.get_documents` is not modelled: the `database` module is not part of this model. The sequence of records is a parameter, and both passes (main.py:108 and 126) read the same sequence. That assumes `get_documents` returns a list. If it returned a one-shot cursor, the second pass would see no records and the duplicates would always be empty.
- schemas.py is not modelled, and main.py does not import it. The non-negative amounts that `SummaryProperties.SummaryNonNegative` requires come from the `ge=0` constraint of main.py:23, which `Insights.AmountsNonNegative` states.
- Insights.MonthlySummary: returns exact real totals, without Python's `round(x, 2)`. Floating-point arithmetic is not modelled either: neither the cycle conversion (`amount / 12.0`, `amount * 52.0 / 12.0`, main.py:116-118) nor the sums. The results may differ from exact values in the last digits. Billing.MonthlyCost's `12 × monthly = amount` and Billing.MonthlyCostLinear hold only in exact arithmetic. So do SummaryProperties.TotalIsSumOfServiceValues and SummaryProperties.SummaryIgnoresOrder. The source adds to `total_monthly` in record order (main.py:121) and to each `by_service` entry separately (main.py:123). Float addition is not associative, so in the source the total need not equal the sum of the per-service values exactly, and neither need be independent of record order.
- Billing.MonthlyCost: computes in exact reals, so `12 × monthly = amount` (annual) and `12 × monthly = 52 × amount` (weekly) hold exactly. Python's float division and multiplication round at each step, so in the source these identities, and the linearity of Billing.MonthlyCostLinear, hold only approximately.
- Insights.MonthlySummary: returns the duplicates as a set. The list the source builds follows dict insertion order, which is not modelled. The list has no repeats in the source because main.py:131 builds it from the keys of `name_counts`.
- Insights.AmountOf: reads a stored amount as a number or as missing. `float()` raising on a null or non-numeric amount, and so failing the whole request, is not modelled. Stored documents pass the `amount: float` field check at creation.
- Insights.NameOf: reads a stored name as a string or as missing. Non-string names are not modelled. A falsy one (`0`, `False`, `[]`) becomes "" through `or ""`, so the record is skipped like a blank name. A truthy one (a non-zero number, say) makes `.strip()` raise and fails the request.
- Text.Lower, Text.LowerChar, Text.IsUpper: lower-case ASCII letters only. Python's `str.lower()` also maps other cased letters, and some of them to more than one character. `Text.NormaliseShape`'s `|Normalise(s)| <= |s|` depends on this choice: in Python, `"İ".lower()` is two characters long, so a key can be longer than its name.
- Insights.CycleOf: a cycle stored as null and a missing cycle both read as "monthly". The source passes the amount through in both cases, so the cost is the same.
