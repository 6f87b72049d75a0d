# Childcare leads tracker — a verified model of its core

The leads tracker collects childcare-centre business leads for Canada and Australia. Three
fetchers turn open-data CSV files (the Ontario licensed facilities list, the British Columbia child
care map, the ACECQA national register) into lead records. The data processor cleans and
validates them, the deduplicator drops records already in the spreadsheet or repeated within a
batch, a rule-based scorer (or the Claude analyzer, when it is enabled and answers) gives each
lead a 0–100 score and a priority, and the notification manager alerts two group channels
(PushPlus and DingTalk) under an hourly quota. Configuration comes from environment variables.

The Dafny project models that pipeline:

| file | module | models |
|---|---|---|
| `text.dfy` | `Text` | ASCII `lower`/`upper`/`title`/`strip`, substring search, `join`, decimal digits |
| `values.dfy` | `Values`, `Seqs` | loosely typed record fields (`Null`/`Str`/`Int`), `int(str)`, list filtering, counting and comprehensions |
| `config.dfy` | `Config` | `src/config.py`: settings read from the environment and `validate()` |
| `validators.dfy` | `Validators` | `src/utils/validators.py`: record validation and field cleaners |
| `helpers.dfy` | `Helpers` | `src/utils/helpers.py`: string, date, postal-code and lookup helpers |
| `scorer.dfy` | `Scorer` | `src/analyzers/scorer.py`: the rule-based scorer |
| `claude_analyzer.dfy` | `ClaudeAnalysis` | `src/analyzers/claude_analyzer.py`: scoring with the model's reply or the fallback |
| `deduplicator.dfy` | `Deduplication` | `src/analyzers/deduplicator.py`: duplicate removal against the sheet and within a batch |
| `data_processor.dfy` | `DataProcessing` | `src/core/data_processor.py`: normalisation, classification, sorting, statistics |
| `notification_manager.dfy` | `Notifications` | `src/notifiers/notification_manager.py`: channel routing and the hourly quota |
| `fetcher_common.dfy` | `FetcherCommon` | what the three fetchers share: column lookup, cell reading, the row loop, the "new records" filter |
| `acecqa_fetcher.dfy`, `ontario_fetcher.dfy`, `bc_fetcher.dfy` | `AcecqaFetcher`, `OntarioFetcher`, `BcFetcher` | `src/fetchers/*_fetcher.py`: each source's column names, record shape and filter |

Modelling choices:

- A Python dict record is a `map<string, Value>`. An absent key and a key holding `None` stay
  distinct, as `dict.get` distinguishes them.
- Functions of the pure code are Dafny functions. Loops are methods proved against a recursive
  specification function. The deduplicator, the notification manager and the fetchers' status
  update their fields in place, so they are classes.
- What the code gets from outside becomes a parameter:
  - the spreadsheet reads become `Option<set<string>>`, with `None` for a failed read;
  - the fuzzy ratio, the md5 hash, `strptime`, today's date, the float parse of a capacity cell, each channel's send result and the Claude reply are parameters too.
- A CSV cell is `Option<string>`; `None` is a pandas NaN.

Where the documentation and the code disagree, the model follows the code:

- Phone and province normalisation are documented as idempotent, but they are not:
  - `clean_phone` turns an 11-digit `1…` number into `+1 (NNN) NNN-NNNN`, and cleaning that again gives `+1NNNNNNNNNN`;
  - `normalize_province` maps `nl` to `Newfoundland and Labrador`, which `title()` then turns into `Newfoundland And Labrador`.
  - `Validators.CleanPhoneElevenDigitsNotIdempotent` and `Validators.NormalizeProvinceNotIdempotent` state this.
- The English stage keyword `renew` contains `new`, so a renewal written in English scores as a new build (`Scorer.EnglishRenewalScoresAsNew`).
- The country check accepts any country whose lower-cased text contains `ca` or `au` (`Validators.CountryTokenIsSubstring`).

## Model

| member | source | states |
|---|---|---|
| Config.EnvFlag | src/config.py:43-47 | a flag is its default when unset, otherwise true exactly when its lower-cased value is `true` |
| Config.EnvInt | src/config.py:37-40 | an integer setting is `int()` of its value, or of the default's decimal text when unset |
| Config.EnvIntUnset | src/config.py:37-40 | an unset integer setting reads back as its default |
| Config.ReadThresholds | src/config.py:37-40 | the thresholds load exactly when all four integer settings parse |
| Config.LoadSettings | src/config.py:19-66 | settings load exactly when every integer setting parses (the four thresholds, `MAX_INSTANT_ALERTS_PER_HOUR`, `BATCH_INTERVAL`, `FETCH_TIMEOUT`, `MAX_RETRIES` and `MAX_RECORDS_PER_RUN`); the sheet name defaults to `幼儿园商机追踪` |
| Config.DefaultThresholdValues | src/config.py:37-40 | with an empty environment the thresholds are 90/85/70/0 |
| Config.DefaultSettings | src/config.py:19-51 | with an empty environment every setting takes its documented default |
| Config.DefaultThresholdsOrdered | src/config.py:37-40 | the default thresholds are ordered critical ≥ high ≥ medium ≥ low |
| Config.Validate | src/config.py:78-103 | an error is reported exactly when its condition holds, and errors come in the order of the checks |
| Config.ValidateEmptyIff | src/config.py:78-103 | the configuration is valid exactly when none of the five conditions holds |
| Config.ValidateAtMostFour | src/config.py:84-101 | at most four errors; "no channel" never comes with a missing token or webhook |
| Config.ValidateAllEnabled | src/config.py:91-101 | with every channel and the AI enabled, the errors are exactly the missing credentials, in order |
| Config.DefaultsNeedCredentials | src/config.py:19-103 | the default settings lack the PushPlus token, the DingTalk webhook and the API key |
| Values.ParseInt | src/config.py:37-40 | `int()` of blank text fails |
| Values.ParseIntDecimal | src/config.py:37-40 | `int()` reads back every integer's decimal text |
| Validators.NormalizeCountry | src/utils/validators.py:146-159 | empty gives `''`; the Canada and Australia variants give their emoji labels; other text is returned unchanged |
| Validators.LabelsAreNotVariants | src/utils/validators.py:154-157 | neither emoji label is itself a recognised variant |
| Validators.NormalizeCountryIdempotent | src/utils/validators.py:146-159 | normalising a country twice gives the same as once |
| Validators.NormalizeProvince | src/utils/validators.py:131-144 | empty gives `''`; under another country the result is the title-cased input |
| Validators.ProvinceFromCanadaTable | src/utils/validators.py:139-140 | a Canadian abbreviation maps to the table's full name |
| Validators.ProvinceFromAustraliaTable | src/utils/validators.py:141-142 | an Australian abbreviation maps to the table's full name |
| Validators.ProvinceFallback | src/utils/validators.py:131-144 | a name missing from the table the country selects is title-cased, even when the other country's table has it, and any name is title-cased under a country that selects no table |
| Validators.NormalizeProvinceNotIdempotent | src/utils/validators.py:131-144 | `nl` becomes `Newfoundland and Labrador`, which is no table key and is title-cased on a second pass into a different string, so province normalisation is not idempotent |
| Validators.DialChars | src/utils/validators.py:168 | keeps only digits and `+`, never lengthening the text |
| Validators.PhoneLayout | src/utils/validators.py:171-172 | ten digits are laid out as `(NNN) NNN-NNNN` |
| Validators.CleanPhone | src/utils/validators.py:161-176 | empty gives `''`; 10 dial characters give the North American layout, 11 starting with `1` the `+1` layout, anything else the bare dial characters |
| Validators.TenDigitLayoutKeepsNumber | src/utils/validators.py:171-172 | the ten-digit layout keeps the same digits |
| Validators.ElevenDigitLayoutKeepsNumber | src/utils/validators.py:173-174 | the `+1` layout keeps the digits, with a leading `+` |
| Validators.CleanPhoneKeepsNumber | src/utils/validators.py:161-176 | the cleaned phone holds the input's dial characters |
| Validators.CleanPhoneTenDigitsIdempotent | src/utils/validators.py:171-172 | a ten-digit number is stable under cleaning again |
| Validators.CleanPhoneElevenDigitsNotIdempotent | src/utils/validators.py:173-176 | cleaning a `+1` number again drops its layout |
| Validators.CleanEmail | src/utils/validators.py:178-191 | the result is `''` or the stripped, lower-cased input matching the e-mail pattern, and every matching input is kept |
| Validators.EmailShapedChars | src/utils/validators.py:187 | an address matching the pattern has no blanks and exactly one `@` |
| Validators.CleanEmailShape | src/utils/validators.py:178-191 | a non-empty cleaned e-mail has no blanks, one `@` and no upper-case letter |
| Validators.CleanEmailIdempotent | src/utils/validators.py:178-191 | cleaning an e-mail twice gives the same as once |
| Validators.FirstDigitRun | src/utils/validators.py:204 | finds the first maximal digit run, `None` exactly when there is no digit |
| Validators.CleanCapacity | src/utils/validators.py:193-208 | `None`/`''` give `None`; an int is kept; text gives its first digit run, `None` exactly when it has no digit |
| Validators.CleanCapacityReadsNumber | src/utils/validators.py:202-206 | a number followed by non-digits reads back as that number |
| Validators.IsMajorCity | src/utils/validators.py:210-224 | false for no city; with a Canadian or Australian country only that country's list counts; otherwise either list |
| Validators.RequiredFields | src/utils/validators.py:15-19 | every record type requires name, country and source plus one type-specific field |
| Validators.RequiredErrors | src/utils/validators.py:85-88 | a required field is reported exactly when it is absent, `None` or blank |
| Validators.CapacityErrors | src/utils/validators.py:91-101 | at most one capacity error; unparsable text is reported as invalid |
| Validators.AmountErrors | src/utils/validators.py:98-101 | a negative capacity and one above 500 are each reported, and 0–500 is accepted |
| Validators.ValidateDate | src/utils/validators.py:119-129 | a date is valid exactly when one of the four formats parses it |
| Validators.DateErrors | src/utils/validators.py:104-108 | a non-empty date field is reported exactly when no format parses it, showing its text; nothing else is reported |
| Validators.CountryErrors | src/utils/validators.py:110-115 | at most one error, the lower-cased country, reported exactly when it is non-empty and contains none of the accepted tokens |
| Validators.ValidateRecord | src/utils/validators.py:69-117 | the record is valid exactly when the list of errors is empty |
| Validators.ValidationErrors | src/utils/validators.py:81-117 | no own contract: ValidationErrorsSplit states the four groups in source order, MissingFieldIff, CapacityChecks and CountryCheck when each error appears |
| Validators.CheckRequired | src/utils/validators.py:85-88 | the loop over required fields reports exactly the blank ones |
| Validators.CheckCapacity | src/utils/validators.py:91-101 | the capacity checks give exactly the capacity errors |
| Validators.CheckAmount | src/utils/validators.py:97-100 | a number below zero gives the negative-capacity error, one above 500 the implausible-capacity error, any other none |
| Validators.CheckDates | src/utils/validators.py:104-108 | the loop over date fields reports exactly the invalid ones |
| Validators.CheckCountry | src/utils/validators.py:110-115 | the country check gives exactly the country errors |
| Validators.UnknownTypeIsNewProject | src/utils/validators.py:82 | an unknown record type is validated as a new project |
| Validators.MissingFieldIff | src/utils/validators.py:85-88 | a missing-field error appears exactly when that required field is blank |
| Validators.ValidationErrorsSplit | src/utils/validators.py:81-117 | the errors are the required, capacity, date and country errors, in that order |
| Validators.CapacityChecks | src/utils/validators.py:91-101 | the record's errors hold a capacity error exactly when its capacity fails the checks |
| Validators.CountryCheck | src/utils/validators.py:110-115 | the record's errors hold a country error exactly when its country lacks a token |
| Validators.CountryTokenIsSubstring | src/utils/validators.py:112-114 | `jamaica` passes the country check because it contains `ca`, and `peru` fails it |
| Helpers.CollapseSpaces | src/utils/helpers.py:113-114 | the result has only single blanks, never two in a row, and starts with whitespace exactly when the input does |
| Helpers.CollapseKeepsWords | src/utils/helpers.py:113-114 | collapsing keeps the words of the input: none is joined, split or dropped |
| Helpers.CollapseKeepsText | src/utils/helpers.py:113-114 | collapsing keeps every non-blank character, in order |
| Helpers.CleanString | src/utils/helpers.py:97-119 | falsy gives ``; the result has no edge blanks and no whitespace runs, and keeps the input's non-blank text |
| Helpers.CleanedIsJoin | src/utils/helpers.py:113-119 | a string without edge blanks or whitespace runs is its words joined by single spaces |
| Helpers.CleanStringWords | src/utils/helpers.py:97-119 | a truthy input cleans to its words joined by single spaces |
| Helpers.CleanStringIdempotent | src/utils/helpers.py:97-119 | cleaning twice gives the same as once |
| Helpers.TruncateString | src/utils/helpers.py:79-94 | short text is kept; long text becomes a prefix plus the suffix, no longer than the limit |
| Helpers.KeyParts | src/utils/helpers.py:23-31 | a record's id key has exactly five parts |
| Helpers.SameKeyFieldsSameId | src/utils/helpers.py:12-32 | records agreeing on the key fields get the same id |
| Helpers.JoinBarInjective | src/utils/helpers.py:31 | bar-free key parts joined with `\|` determine the parts |
| Helpers.FirstParsing | src/utils/helpers.py:59-64 | the first format that parses, `None` exactly when none does |
| Helpers.FirstParsingAt | src/utils/helpers.py:59-64 | a format that parses after formats that all failed is the first parsing one |
| Helpers.TryFormats | src/utils/helpers.py:59-64 | the loop returns a result exactly when some format parses, and then the first format's parse |
| Helpers.FormattedDate | src/utils/helpers.py:35-66 | `None` gives `''`; text is reformatted by the first format that parses, or returned as given |
| Helpers.FormatDate | src/utils/helpers.py:35-66 | the loop over formats computes the formatted date |
| Helpers.CanadaMatchAt | src/utils/helpers.py:138-143 | a match is `A1A1A1` or `A1A 1A1`, of length 6 or 7 |
| Helpers.FirstCanadaMatch | src/utils/helpers.py:138-143 | `re.search` finds the leftmost match, `None` exactly when there is none |
| Helpers.LastAustraliaMatch | src/utils/helpers.py:145-150 | the last whole-word four-digit run before a bound, `None` exactly when there is none |
| Helpers.AustraliaMatchesDisjoint | src/utils/helpers.py:145-150 | two four-digit whole-word matches never overlap |
| Helpers.CanadaCode | src/utils/helpers.py:138-143 | `None` exactly when the address has no Canadian match; otherwise the leftmost match with its spaces removed, of the letter-digit-letter digit-letter-digit shape |
| Helpers.AustraliaCode | src/utils/helpers.py:145-150 | `None` exactly when there is no whole-word four-digit run; otherwise the last such run, four digits |
| Helpers.ExtractPostalCode | src/utils/helpers.py:122-152 | no address or an unsupported country gives `None`; a Canadian name (tested first) uses the first match of the upper-cased address, an Australian name the last |
| Helpers.PriorityEmoji | src/utils/helpers.py:190-207 | an unknown priority gets the default emoji |
| Helpers.PriorityColor | src/utils/helpers.py:210-227 | every colour is a `#RRGGBB` code, grey for an unknown priority |
| Helpers.PriorityLookupsIgnoreCase | src/utils/helpers.py:190-227 | the emoji and colour lookups ignore case |
| Helpers.PriorityColorsDistinct | src/utils/helpers.py:210-227 | the four priority colours and the default are distinct |
| Helpers.Chunks | src/utils/helpers.py:230-242 | size 0 fails; a negative size gives no chunks; otherwise the chunks concatenate to the list, all full but the last |
| Helpers.LookupAppend | src/utils/helpers.py:245-265 | looking up a key path equals looking up its prefix and then the rest |
| Helpers.SafeGet | src/utils/helpers.py:245-265 | the nested lookup returns the value at the key path, or the default when a key is missing |
| Scorer.DeterminePriority | src/analyzers/scorer.py:217-233 | each priority band is exactly the threshold interval the code tests, in order |
| Scorer.PriorityMonotone | src/analyzers/scorer.py:217-233 | with ordered thresholds, a higher score never gets a lower priority |
| Scorer.PriorityBands | src/analyzers/scorer.py:217-233 | with ordered thresholds, High, Medium and Low are the half-open bands between them |
| Scorer.CapacityScore | src/analyzers/scorer.py:95-122 | 80+ gives 30, 60+ 25, 40+ 20, 20+ 15, less 10; an unreadable capacity gives 15 |
| Scorer.CapacityScoreMonotone | src/analyzers/scorer.py:95-122 | a larger capacity never scores lower |
| Scorer.CapacityScoreOfText | src/analyzers/scorer.py:95-122 | a capacity given as decimal text scores as the number |
| Scorer.CanadaCityScore | src/analyzers/scorer.py:15-25 | every Canadian city score is 25, 30, 35 or 40 |
| Scorer.AustraliaCityScore | src/analyzers/scorer.py:28-38 | every Australian city score is 25, 30, 35 or 40 |
| Scorer.TableScore | src/analyzers/scorer.py:124-152 | a listed city scores its table entry; an unlisted city scores 20 |
| Scorer.LocationScore | src/analyzers/scorer.py:124-152 | no city or another country gives 20; otherwise a city in that country's table scores exactly its table entry (40, 35, 30 or 25), and any other city 20 |
| Scorer.ScoredCitiesAreMajor | src/analyzers/scorer.py:15-40 | every scored city is one of the validators' major cities |
| Scorer.LocationAboveDefaultIsMajorCity | src/analyzers/scorer.py:124-152 | a location score above 20 means a major city |
| Scorer.StageScore | src/analyzers/scorer.py:154-193 | 30 exactly when the type or status names a new build; otherwise 25 for an expansion, then 20 for a change, then 15 for a renewal, then 25 for a sale or tender, else 20 |
| Scorer.EnglishRenewalScoresAsNew | src/analyzers/scorer.py:154-193 | a status containing `renew` scores 30, because it also contains `new` |
| Scorer.Bonus | src/analyzers/scorer.py:195-215 | 10 when the name or notes mention both a public and a community keyword, 0 when neither, else 5 |
| Scorer.BonusGrowsWithNotes | src/analyzers/scorer.py:195-215 | adding text to the notes never lowers the bonus |
| Scorer.SubScoresOf | src/analyzers/scorer.py:60-79 | each sub-score lies in its documented range |
| Scorer.Total | src/analyzers/scorer.py:76-80 | the total is the sum capped at 100, between 45 and 100 |
| Scorer.RuleScore | src/analyzers/scorer.py:60-80 | a rule-based score is between 45 and 100 |
| Scorer.StampKeeps | src/analyzers/scorer.py:83-90 | writing the scores adds exactly the score fields and leaves every other field unchanged |
| Scorer.ScoreRecord | src/analyzers/scorer.py:45-93 | writes the rule-based total as `ai_score`, the priority that total earns and the method `rule_based`, and keeps every key of the input; the sub-scores and the untouched values are in ScoreRecordWrites and ScoreRecordKeeps |
| Scorer.ScoreRecordWrites | src/analyzers/scorer.py:45-93 | the record gains the total (45–100), the three sub-scores, the priority of the total and the method `rule_based` |
| Scorer.ScoreRecordKeeps | src/analyzers/scorer.py:45-93 | scoring adds exactly the score fields and keeps every other field |
| Scorer.ScoredPriority | src/analyzers/scorer.py:83-90 | the written priority is read back as the rule priority |
| Scorer.Tally | src/analyzers/scorer.py:258-261 | tallying a priority adds one to the distribution's total |
| Scorer.ParsePriority | src/analyzers/scorer.py:258-261 | a recognised priority name reads back as that priority |
| Scorer.Distribute | src/analyzers/scorer.py:258-261 | the distribution's counts add up to the number of priorities |
| Scorer.DistributeCounts | src/analyzers/scorer.py:258-261 | each count of the distribution is the number of records with that priority |
| Scorer.PrefixSnoc | src/analyzers/scorer.py:258-261 | scoring one more record extends the scored list and the priority list by that record's result |
| Scorer.AppendScored | src/analyzers/scorer.py:259-260 | one loop step extends the results to the next prefix of the batch |
| Scorer.TallyRecord | src/analyzers/scorer.py:259-261 | one loop step adds the record's priority to the distribution |
| Scorer.BatchScore | src/analyzers/scorer.py:235-270 | the batch is every record scored in order, with the distribution of their priorities |
| Scorer.BatchScoreMeaning | src/analyzers/scorer.py:235-270 | each result is its record scored, each tallied priority is its rule priority, and the counts add up to the batch size |
| ClaudeAnalysis.Clamp | src/analyzers/claude_analyzer.py:68 | the score is clamped into 0–100 and a score already inside is kept |
| ClaudeAnalysis.ClampMonotone | src/analyzers/claude_analyzer.py:68 | clamping keeps the order of scores |
| ClaudeAnalysis.ReplyScore | src/analyzers/claude_analyzer.py:68 | a reply without a score reads as 50, a numeric score reads back as itself, and a string or null score has no value (the clamp raises on it and the fallback scores) |
| ClaudeAnalysis.AiStampKeeps | src/analyzers/claude_analyzer.py:82-86 | writing the model's answer adds exactly the five answer fields and keeps every other field |
| ClaudeAnalysis.ScoreProject | src/analyzers/claude_analyzer.py:38-96 | always writes a score in 0..100 and the priority ProjectPriority names; the method is `claude_ai` exactly when the call was answered and `rule_based` otherwise; every input key is kept (the written values in full are in ScoreProjectWrites) |
| ClaudeAnalysis.ScoreProjectWrites | src/analyzers/claude_analyzer.py:38-96 | without an answer the rule-based result; with one, the clamped score (0–100), its priority, the reasoning, the recommendation and `claude_ai`, other fields kept |
| ClaudeAnalysis.ProjectTallied | src/analyzers/claude_analyzer.py:71-86 | the written priority is read back as the project's priority |
| ClaudeAnalysis.AnsweredPriorityMonotone | src/analyzers/claude_analyzer.py:68-79 | with ordered thresholds, a higher model score never gets a lower priority |
| ClaudeAnalysis.ProjectSnoc | src/analyzers/claude_analyzer.py:166-172 | scoring one more project extends the results and the priorities by that project's result |
| ClaudeAnalysis.AppendProject | src/analyzers/claude_analyzer.py:170-171 | one loop step extends the results to the next prefix of the batch |
| ClaudeAnalysis.TallyProject | src/analyzers/claude_analyzer.py:170-172 | one loop step adds the scored project's priority to the distribution |
| ClaudeAnalysis.BatchScore | src/analyzers/claude_analyzer.py:143-182 | the batch is every project scored in order, with the distribution of their priorities |
| ClaudeAnalysis.BatchScoreMeaning | src/analyzers/claude_analyzer.py:143-182 | each result is its project scored, each tallied priority is its priority, and the counts add up to the batch size |
| ClaudeAnalysis.DisabledIsRuleBased | src/analyzers/claude_analyzer.py:48-49 | with the analyzer disabled the batch equals the rule-based batch |
| Deduplication.LargeSetsMatchExactly | src/analyzers/deduplicator.py:148-153 | above 1000 known addresses only an exact match counts as similar |
| Deduplication.EntryOf | src/analyzers/deduplicator.py:91-93 | no own contract: the stripped licence, the lower-cased name and address joined by a bar, and the lower-cased stripped address a record is judged by; RunKeys and RunAddresses state what the pass records of them |
| Deduplication.Judge | src/analyzers/deduplicator.py:95-113 | no own contract: the licence check first, then the key, then the fuzzy address; LicenseChecksFirst and EmptyAddressNeverFuzzy state the outcome over a batch |
| Deduplication.Note | src/analyzers/deduplicator.py:99-116 | no own contract: the licence is recorded once its check passes, the key once its check passes, the address only for a kept record; KeyRecordedSnoc, AddressKeptSnoc and RunLicenses state these |
| Deduplication.CountDrop | src/analyzers/deduplicator.py:96-112 | each dropped record adds one to the duplicate total |
| Deduplication.Run | src/analyzers/deduplicator.py:90-118 | one verdict per record |
| Deduplication.RunSnoc | src/analyzers/deduplicator.py:90-118 | processing one more record judges it against what was seen before it |
| Deduplication.RunVerdictAt | src/analyzers/deduplicator.py:90-118 | each record is judged against the state left by the records before it |
| Deduplication.LicensesOfMember | src/analyzers/deduplicator.py:91-100 | the licences of a batch are exactly its non-empty licences |
| Deduplication.RunLicenses | src/analyzers/deduplicator.py:96-100 | the known licences grow by every non-empty licence in the batch |
| Deduplication.LicenseChecksFirst | src/analyzers/deduplicator.py:96-100 | a licensed record is a licence duplicate exactly when its licence is known or appeared earlier |
| Deduplication.KeyRecordedSnoc | src/analyzers/deduplicator.py:102-107 | after one more record a name+address key is recorded exactly when it was before or the record passed the licence check with that key |
| Deduplication.RunKeys | src/analyzers/deduplicator.py:102-107 | the name+address set holds exactly the keys of the records that passed the licence check |
| Deduplication.AddressKeptSnoc | src/analyzers/deduplicator.py:109-115 | after one more record an address is known exactly when it was before or the record was kept with that non-empty address |
| Deduplication.RunAddresses | src/analyzers/deduplicator.py:109-115 | the address set holds exactly the seed addresses and the non-empty addresses of the kept records |
| Deduplication.EmptyAddressNeverFuzzy | src/analyzers/deduplicator.py:109-112 | a record without an address is never a fuzzy duplicate |
| Deduplication.KeptIndices | src/analyzers/deduplicator.py:117-118 | lists, in increasing order, exactly the positions judged unique |
| Deduplication.RunKeepsOrder | src/analyzers/deduplicator.py:90-118 | the kept records are the unique ones, in input order |
| Deduplication.RunTotal | src/analyzers/deduplicator.py:90-118 | kept plus dropped equals the batch size |
| Deduplication.RunCounts | src/analyzers/deduplicator.py:90-118 | each duplicate counter counts the verdicts of its kind |
| Deduplication.Deduplicator.constructor | src/analyzers/deduplicator.py:19-32 | starts with no known licences or addresses, not yet loaded |
| Deduplication.Deduplicator.LoadExistingData | src/analyzers/deduplicator.py:34-54 | loads once when a sheet exists; a failed read keeps the old sets |
| Deduplication.Deduplicator.IsSimilarAddress | src/analyzers/deduplicator.py:132-161 | computes the similarity predicate |
| Deduplication.Deduplicator.RemoveDuplicates | src/analyzers/deduplicator.py:56-130 | an empty batch returns at once; otherwise the data is loaded and the result is the run over the batch |
| Deduplication.Deduplicator.Pass | src/analyzers/deduplicator.py:79-118 | the loop's kept records and counters are those of the run over the batch |
| Deduplication.Deduplicator.CheckRecord | src/analyzers/deduplicator.py:90-118 | one loop step judges the record, records it and counts a drop |
| Deduplication.Deduplicator.DedupeWithinBatch | src/analyzers/deduplicator.py:163-187 | keeps the first record of each id |
| Deduplication.IdsOfSound | src/analyzers/deduplicator.py:175-184 | every record's id is among the ids |
| Deduplication.IdsOfComplete | src/analyzers/deduplicator.py:175-184 | every id is the id of some record |
| Deduplication.FirstOfEach | src/analyzers/deduplicator.py:163-187 | never lengthens the batch |
| Deduplication.FirstOfEachIds | src/analyzers/deduplicator.py:163-187 | the result has the same set of ids as the batch |
| Deduplication.FirstOfEachDistinct | src/analyzers/deduplicator.py:163-187 | the kept records have pairwise distinct ids |
| Deduplication.FirstOfEachOrder | src/analyzers/deduplicator.py:163-187 | the result keeps input order, and each kept record is the first with its id |
| DataProcessing.CleanedAreBase | src/core/data_processor.py:80-121 | every cleaned field is one of the fixed fields |
| DataProcessing.OptionalNotBase | src/core/data_processor.py:80-145 | no sale or tender field is a fixed field |
| DataProcessing.ScoreFieldsUncleaned | src/core/data_processor.py:113-121 | the score, priority and type fields are fixed fields that no cleaner touches |
| DataProcessing.NormalizeRecord | src/core/data_processor.py:68-147 | fails exactly on a record the code cannot normalise; otherwise it has the base fields plus the optional fields present |
| DataProcessing.NormalizedText | src/core/data_processor.py:80-121 | name, address and licence are cleaned, the city title-cased, the country and e-mail normalised |
| DataProcessing.NormalizedDefaults | src/core/data_processor.py:80-121 | score, priority and type are copied, or default to 50, `Medium` and `新建` |
| DataProcessing.OptionalFieldsKept | src/core/data_processor.py:123-145 | sale and tender fields are kept only when present, dates reformatted |
| DataProcessing.NormalizedNormalizable | src/core/data_processor.py:68-147 | a normalised record can be normalised again |
| DataProcessing.CleanOfClean | src/core/data_processor.py:81-82 | a collapsed string without edge spaces is its own cleaning |
| DataProcessing.TitleKeepsClean | src/core/data_processor.py:83 | title-casing a cleaned string leaves it cleaned |
| DataProcessing.CityStable | src/core/data_processor.py:83 | the title case of a cleaned city is its own cleaning and title case |
| DataProcessing.NormalizeStableText | src/core/data_processor.py:80-121 | normalising again keeps the name, address, city and licence |
| DataProcessing.NormalizeStableCountry | src/core/data_processor.py:80-121 | normalising again keeps the country |
| DataProcessing.NormalizeStableEmail | src/core/data_processor.py:80-121 | normalising again keeps the e-mail |
| DataProcessing.ProcessRecords | src/core/data_processor.py:21-66 | the result is the normalised records that validate, in order |
| DataProcessing.ProcessedSnoc | src/core/data_processor.py:35-56 | one more record adds its normalised form exactly when it is kept |
| DataProcessing.ProcessOne | src/core/data_processor.py:35-56 | one loop step processes the next record |
| DataProcessing.ProcessedSound | src/core/data_processor.py:21-66 | every result is the normalised form of a kept input record |
| DataProcessing.ProcessedComplete | src/core/data_processor.py:21-66 | every kept record's normalised form is in the result |
| DataProcessing.ProcessedCount | src/core/data_processor.py:21-66 | the result has one entry per kept record |
| DataProcessing.KindOf | src/core/data_processor.py:165-176 | sale types give Sale, tender types Tender, anything else a new project |
| DataProcessing.ClassifyBy | src/core/data_processor.py:165-176 | each list is the records of its kind, in input order |
| DataProcessing.ClassifyRecords | src/core/data_processor.py:149-178 | each class holds the records of its kind, in order |
| DataProcessing.ClassifyPartition | src/core/data_processor.py:149-178 | the three classes partition the records |
| DataProcessing.InsertPermutes | src/core/data_processor.py:191-195 | inserting a record adds exactly that record |
| DataProcessing.InsertOrdered | src/core/data_processor.py:191-195 | inserting into an ordered list keeps it ordered by score |
| DataProcessing.InsertStable | src/core/data_processor.py:191-195 | an inserted record goes ahead of the records with its score already in the list |
| DataProcessing.SortByScore | src/core/data_processor.py:180-195 | returns as many records as it is given; ordered, a permutation and stable by SortByScoreOrdered, SortByScorePermutes and SortByScoreStable |
| DataProcessing.SortByScoreOrdered | src/core/data_processor.py:180-195 | the sorted records are ordered by score in the requested direction |
| DataProcessing.SortByScorePermutes | src/core/data_processor.py:180-195 | sorting is a permutation |
| DataProcessing.SortByScoreStable | src/core/data_processor.py:180-195 | records with equal scores keep their order |
| DataProcessing.LowerAll | src/core/data_processor.py:208 | the wanted priorities are lower-cased one by one |
| DataProcessing.FilterByPriority | src/core/data_processor.py:197-212 | no own contract: FilterByPriorityIff states that a record is kept exactly when its lower-cased priority is wanted, FilterByPriorityKeepsOrder that input order is kept |
| DataProcessing.FilterByPriorityIff | src/core/data_processor.py:197-212 | a record is kept exactly when its priority matches a wanted one ignoring case |
| DataProcessing.FilterByPriorityKeepsOrder | src/core/data_processor.py:197-212 | the kept records are in input order |
| DataProcessing.FilterByPriorityLowered | src/core/data_processor.py:197-212 | lower-casing the wanted priorities first changes nothing |
| DataProcessing.Account | src/core/data_processor.py:238-267 | each record adds one to a priority count and at most one to a country count |
| DataProcessing.GetStatistics | src/core/data_processor.py:214-269 | the loop computes the statistics of the records |
| DataProcessing.TallyBounds | src/core/data_processor.py:214-269 | the priority counts add up to the number of records and the country counts to at most that |
| DataProcessing.StatisticsAddUp | src/core/data_processor.py:214-269 | the priority counts add up to the total |
| DataProcessing.AccountCountry | src/core/data_processor.py:243-257 | moves at most one country-by-type counter and no other count; a record from neither country moves none |
| DataProcessing.AccountPriority | src/core/data_processor.py:259-267 | adds one to the count of its lower-cased priority, low for anything unrecognised, and changes no country counter |
| DataProcessing.PriorityCounts | src/core/data_processor.py:259-267 | each priority count is the number of records with that priority |
| Notifications.NotificationManager.constructor | src/notifiers/notification_manager.py:18-33 | starts with the counter at 0, nothing sent and the configured quota and channels |
| Notifications.NotificationManager.Results | src/notifiers/notification_manager.py:57-69 | a channel reports success only when it is enabled |
| Notifications.NotificationManager.NotifyCriticalLead | src/notifiers/notification_manager.py:39-71 | refused, with no change, when alerts are off or the quota is used up; otherwise sends on both channels, mentions everyone on DingTalk and counts one alert |
| Notifications.NotificationManager.NotifyHighPriorityBatch | src/notifiers/notification_manager.py:73-98 | nothing for an empty batch or with alerts off; otherwise one batch message per channel, no mention, no quota |
| Notifications.NotificationManager.SendDailySummary | src/notifiers/notification_manager.py:100-122 | sent on every enabled channel, with no quota |
| Notifications.NotificationManager.SendErrorAlert | src/notifiers/notification_manager.py:124-143 | sent to the PushPlus owner only, never to DingTalk or a group |
| Notifications.NotificationManager.Admitted | src/notifiers/notification_manager.py:49-55 | at most as many alerts as asked for are admitted |
| Notifications.NotificationManager.AdmittedStep | src/notifiers/notification_manager.py:49-55 | one more alert is admitted exactly when alerts are on and the counter is below the quota |
| Notifications.NotificationManager.NotifyCriticalLeads | src/notifiers/notification_manager.py:170-173 | the admitted prefix of the critical leads is alerted and counted, and the notified count is how many reached a channel |
| Notifications.NotificationManager.ProcessScoredLeads | src/notifiers/notification_manager.py:145-181 | critical leads are alerted one by one under the quota, high leads in one batch; the statistics count what was delivered |
| Notifications.NotificationManager.ResetHourlyCounter | src/notifiers/notification_manager.py:183-186 | the counter returns to 0 |
| Notifications.NotificationManager.QuotaKept | src/notifiers/notification_manager.py:53-69 | the counter never passes the quota when it starts within it |
| FetcherCommon.SafeGet | src/fetchers/acecqa_fetcher.py:232-242 | a cell is read only from an existing non-NaN, non-empty column, and comes back stripped |
| FetcherCommon.FirstCaseless | src/fetchers/acecqa_fetcher.py:227-229 | finds the first column equal ignoring case, `None` exactly when there is none |
| FetcherCommon.ExactMatches | src/fetchers/acecqa_fetcher.py:224-226 | an exactly present name matches |
| FetcherCommon.FindColumn | src/fetchers/acecqa_fetcher.py:222-230 | the column found is in the header, and none is found exactly when no candidate matches |
| FetcherCommon.FirstCaselessEarliest | src/fetchers/acecqa_fetcher.py:227-229 | the caseless search returns the earliest matching column |
| FetcherCommon.FindColumnFirst | src/fetchers/acecqa_fetcher.py:222-230 | the first matching candidate wins: exactly when present, else its first caseless match |
| FetcherCommon.Collect | src/fetchers/acecqa_fetcher.py:154-195 | the row loop emits at most one record per row |
| FetcherCommon.CollectSound | src/fetchers/acecqa_fetcher.py:154-195 | every emitted record comes from some row |
| FetcherCommon.CollectComplete | src/fetchers/acecqa_fetcher.py:154-195 | every row that yields a record has it emitted |
| FetcherCommon.CollectCount | src/fetchers/acecqa_fetcher.py:154-195 | the number of emitted records is the number of kept rows |
| FetcherCommon.NewRecordsUnfiltered | src/fetchers/acecqa_fetcher.py:298-299 | with no known licences every fetched record is new |
| FetcherCommon.NewRecords | src/fetchers/acecqa_fetcher.py:294-304 | no own contract: NewRecordsUnfiltered, NewRecordsIff and NewRecordsKeepOrder state everything when nothing is known, new exactly when the licence is present and unknown, in fetched order |
| FetcherCommon.NewRecordsIff | src/fetchers/acecqa_fetcher.py:298-304 | a record is new exactly when it has a licence number not already known |
| FetcherCommon.NewRecordsKeepOrder | src/fetchers/acecqa_fetcher.py:298-304 | the new records keep the fetched order |
| FetcherCommon.PresentParts | src/fetchers/acecqa_fetcher.py:161-167 | keeps only non-empty address parts |
| FetcherCommon.PresentPartsNone | src/fetchers/acecqa_fetcher.py:161-167 | no part is kept exactly when every part is empty |
| AcecqaFetcher.StateName | src/fetchers/acecqa_fetcher.py:208-217 | a known code is at most three letters and maps to a full name of at least eight letters |
| AcecqaFetcher.NormalizeState | src/fetchers/acecqa_fetcher.py:203-220 | empty gives `''`; a known code in any case maps to its full name; other text is kept as given |
| AcecqaFetcher.FullNameShape | src/fetchers/acecqa_fetcher.py:208-217 | every full state name is at least eight characters and starts and ends with a letter |
| AcecqaFetcher.LongNameNotCode | src/fetchers/acecqa_fetcher.py:208-217 | such a name, lower-cased and stripped, is not a state code |
| AcecqaFetcher.FullNameStable | src/fetchers/acecqa_fetcher.py:203-220 | a full state name normalises to itself |
| AcecqaFetcher.NormalizeStateIdempotent | src/fetchers/acecqa_fetcher.py:203-220 | normalising a state twice gives the same as once |
| AcecqaFetcher.Resolve | src/fetchers/acecqa_fetcher.py:113-151 | no own contract: each column is FindColumn over its candidate names, so FindColumn and FindColumnFirst apply to each |
| AcecqaFetcher.FullAddress | src/fetchers/acecqa_fetcher.py:161-167 | no own contract: FullAddressParts states that every non-empty part occurs and that it is empty exactly when all parts are |
| AcecqaFetcher.LeadOf | src/fetchers/acecqa_fetcher.py:155-193 | no own contract: LeadShape and TransformedLead state the fields of the lead |
| AcecqaFetcher.FullAddressParts | src/fetchers/acecqa_fetcher.py:161-167 | every non-empty part occurs in the full address, which is empty exactly when all parts are |
| AcecqaFetcher.LeadShape | src/fetchers/acecqa_fetcher.py:176-193 | a named row's lead has a stripped name, an address, a normalised state and the fixed Australian fields |
| AcecqaFetcher.Transform | src/fetchers/acecqa_fetcher.py:105-201 | the loop emits the lead of each named row, in order |
| AcecqaFetcher.TransformedLead | src/fetchers/acecqa_fetcher.py:154-195 | every emitted lead is named, Australian, approved, new and dated today |
| AcecqaFetcher.TransformedCount | src/fetchers/acecqa_fetcher.py:155-158 | exactly the rows with a non-empty name are emitted |
| AcecqaFetcher.Fetcher.constructor | src/fetchers/base_fetcher.py:33-41 | the status count starts at 0 |
| AcecqaFetcher.Fetcher.FetchNewServices | src/fetchers/acecqa_fetcher.py:294-309 | returns the new records and records their number when filtering |
| OntarioFetcher.FullAddressKeeps | src/fetchers/ontario_fetcher.py:118-124 | a postal code always ends up in the address, which keeps the old text as its prefix |
| OntarioFetcher.LeadShape | src/fetchers/ontario_fetcher.py:110-154 | the lead is named after the centre or else the holder, is in Ontario, Canada, and has an issue date exactly when the row has one |
| OntarioFetcher.Transform | src/fetchers/ontario_fetcher.py:65-162 | the loop emits the lead of each row with a name or a holder, in order |
| OntarioFetcher.TransformedLead | src/fetchers/ontario_fetcher.py:107-156 | every emitted lead is named, Ontarian, newly issued and dated today |
| OntarioFetcher.TransformedCount | src/fetchers/ontario_fetcher.py:110-115 | exactly the rows with a centre name or a licence holder are emitted |
| OntarioFetcher.Fetcher.constructor | src/fetchers/base_fetcher.py:33-41 | the status count starts at 0 |
| OntarioFetcher.Fetcher.FetchNewLicenses | src/fetchers/ontario_fetcher.py:187-211 | returns the new records and records their number when filtering |
| OntarioFetcher.Resolve | src/fetchers/ontario_fetcher.py:94-105 | no own contract: each column is FindColumn over its candidate names, so FindColumn and FindColumnFirst apply to each |
| OntarioFetcher.FullAddress | src/fetchers/ontario_fetcher.py:118-124 | no own contract: FullAddressKeeps states that a postal code ends up in the address, which keeps the old text as its prefix |
| OntarioFetcher.LeadOf | src/fetchers/ontario_fetcher.py:108-154 | no own contract: LeadShape and TransformedLead state the fields of the lead |
| BcFetcher.FullAddressKeeps | src/fetchers/bc_fetcher.py:72-74 | with an address and a postal code the full address starts with the address and contains the code |
| BcFetcher.LeadShape | src/fetchers/bc_fetcher.py:82-98 | a named row's lead has a stripped name and the fixed British Columbia fields |
| BcFetcher.Transform | src/fetchers/bc_fetcher.py:42-106 | the loop emits the lead of each named row, in order |
| BcFetcher.TransformedLead | src/fetchers/bc_fetcher.py:62-100 | every emitted lead is named, in British Columbia, newly issued and dated today |
| BcFetcher.TransformedCount | src/fetchers/bc_fetcher.py:64-66 | exactly the rows with a non-empty name are emitted |
| BcFetcher.Fetcher.constructor | src/fetchers/base_fetcher.py:33-41 | the status count starts at 0 |
| BcFetcher.Fetcher.FetchNewFacilities | src/fetchers/bc_fetcher.py:130-145 | returns the new records and records their number when filtering |
| BcFetcher.Resolve | src/fetchers/bc_fetcher.py:50-60 | no own contract: each column is FindColumn over its candidate names, so FindColumn and FindColumnFirst apply to each |
| BcFetcher.FullAddress | src/fetchers/bc_fetcher.py:72-74 | no own contract: FullAddressKeeps states that with an address and a postal code it starts with the address and contains the code |
| BcFetcher.LeadOf | src/fetchers/bc_fetcher.py:63-98 | no own contract: LeadShape and TransformedLead state the fields of the lead |

## Left out

- Network and file I/O are outside the model:
  - the Google Sheets reads and writes, CSV downloads (`fetch_csv`, `fetch`, `_get_csv_download_url`) and the fetchers' sample data;
  - the HTTP calls of the PushPlus and DingTalk notifiers and the Claude client.
  - Their results are parameters: the sheet's licence and address sets, each send's success flag, the parsed Claude reply.
- Message text and prompts are not modelled:
  - `_build_scoring_prompt` and `analyze_opportunity` produce free text for or from the model;
  - the notifiers' message formatting, and `format_currency`.
- Floating point is not modelled: a capacity parsed with `int(float(...))` by the fetchers is a parameter `parseNumber`, and a float capacity is handled as an integer.
- `strptime`/`strftime`, `datetime.now`, md5 and the fuzzy ratio are parameters.
- Logging (`get_logger`, every `logger` call) and `print_config` are not modelled.
- Text is ASCII: lower/upper/title, `strip`, and the regular-expression classes `\s`, `\d`, `\w` and `\b` (in `clean_string`, `clean_phone`, `clean_capacity` and `extract_postal_code`) follow Python on ASCII characters only; Python's `\d` and `\w` also match non-ASCII digits and letters, which the model treats as other characters, and non-ASCII characters are never case-changed.
- Score fields and normalised records are returned as new values. Python mutates the caller's dict in place (`score_record`, `score_project`), and the aliasing this creates is not modelled.
- `process_records` keeps its error list for logging only; the model does not build it.
- `batch_score` in the Claude analyzer only logs its priority distribution; the model returns it so that it can be stated.
- The notification manager reads `config` in its constructor; the model takes the quota, the instant-alert flag and each channel's enabled state as constructor arguments.
- `fetch()`'s own update of `status['count']` is taken as the fetcher's state before `fetch_new_*` runs.
- The three fetchers' `_find_column` and `_safe_get` are identical and are modelled once, in `FetcherCommon`.
- ClaudeAnalysis.ReplyScore (and ClaudeAnalysis.ScoreProject): a reply whose score is a JSON float or boolean is not modelled (a `Value` is null, text or an integer); Python clamps such a score and writes it, so `{"score": 85.5}` gives `ai_score` 85.5, and ScoreProject's integer `ai_score` holds only for the replies the model represents.
- Helpers.FormattedDate: a `datetime` input, which `format_date` formats with `strftime` directly, is not modelled (a `Value` cannot hold one); every caller in the core passes text or `None`.
- AcecqaFetcher.Transform (and AcecqaFetcher.TransformedCount): a row whose capacity overflows `int(float(...))` is emitted, where Python skips it (see the line on `except Exception: continue` below).
- OntarioFetcher.Transform (and OntarioFetcher.TransformedCount): the same overflowing-capacity row is emitted, where Python skips it.
- BcFetcher.Transform (and BcFetcher.TransformedCount): the same overflowing-capacity row is emitted, where Python skips it.
- The fetchers' `except Exception: continue` around each row is not modelled: nothing in the model raises. This changes which rows are kept: a capacity cell such as `inf` or `1e999` makes `int(float(...))` raise OverflowError, which the inner `except (ValueError, TypeError)` does not catch, so Python skips that whole row while the model emits it; AcecqaFetcher.TransformedCount, OntarioFetcher.TransformedCount and BcFetcher.TransformedCount ("exactly the named rows") hold for the model only, and for Python only when no capacity cell overflows.
- `ENABLED_SOURCES`, timeouts, retries, `DRY_RUN`, `TIMEZONE` and the source URLs are not modelled: they only steer I/O.
- Scorer.ScoreRecord (and SubScoresOf, RuleScore, BatchScore): requires `ScorerInput`, that the city, type and licence status, and the country of a record with a city, are strings or absent; Python raises AttributeError on `.lower()` of anything else.
- Validators.ValidateRecord (and ValidationErrors, CountryErrors): requires the country to be a string or absent; Python raises AttributeError on `.lower()` of anything else.
- DataProcessing.ClassifyRecords: requires every `type` to be a string or absent; Python raises AttributeError on `.lower()` of anything else.
- DataProcessing.FilterByPriority (and FilterByPriorityIff, FilterByPriorityKeepsOrder, FilterByPriorityLowered): requires every `priority` to be a string or absent; Python raises AttributeError on `.lower()` of anything else.
- DataProcessing.GetStatistics: requires every `country`, `type` and `priority` to be a string or absent; Python raises AttributeError on `.lower()` of anything else.
- Deduplication.EntryOf: a licence number, address or name that is not a string is read as `''`, where Python raises AttributeError on `.strip()`/`.lower()`.
- DataProcessing.SortByScore: requires every `ai_score` to be an integer or absent; Python would compare other values or raise.
- Validators.NormalizeProvince: requires a non-empty province to come with a string country; Python raises on `.lower()` of a non-string.
- DataProcessing.NormalizeRecord: a record whose text fields are not strings is reported as `None`, where Python raises inside `process_records` and skips the record.
- `remove_duplicates` only logs its duplicate counters; the model returns them with the kept records so that they can be stated.
- CSV cells are text. pandas may load a numeric column as numbers, and `_safe_get` treats a numeric `0` as empty; the model does not distinguish a numeric zero cell.
- The fetchers strip thousands separators before parsing a capacity; that parse as a whole is the parameter `parseNumber`.
