# OPORD: a verified model of the AI governance core

OPORD governs access to AI providers. This project models four parts of it in Dafny and
proves what they promise for all inputs, all runs and all reachable states.

* **Spend** - the usage ledger and its two-pass sum, the cost importers, the budgets and
  quotas read from it, and the gateway, which checks before a call and records after it
  (`Ledger`, `Imports`, `LiteLlm`, `Supersession`, `Governance`, `Scopes`, `Gateway`,
  `GatewayUsage`, `GatewayCost`, with `Calendar` and `Ids`).
* **Access** - requests, approvals, instances, recertification, revocation, expiry and
  provider removal as one state machine over the tables they share (`Lifecycle`,
  `LifecycleRuns`, `Requests`, `Admission`, `Expiry`, `SeatCap`, `AccessService`), and the
  registry of MCP servers with its grants (`Mcp`).
* **Redaction** - the Luhn checksum, a leftmost scanner and the pipeline of nine patterns,
  what a text must look like to be redacted, and the in-place walk over a decoded prompt
  (`Luhn`, `Scanner`, `Pipeline`, `Patterns`, `Secrets`, `Dlp`, `DlpTree`, `Refusals`, `Cards`).
* **Organization administration and export** - cursor pagination, computed effective
  access, access ids that are printed and parsed back, grants and their undoing, and the
  CSV audit export (`OrgAdmin`, `AccessIds`, `Grants`, `Csv`).

How it is modelled:

* Code that updates things step by step is a class or a method with loops, proved equal to
  a function of the old state; the theorems are lemmas about those functions and about
  runs of them. Everything outside - the provider, the database, the network - may fail on
  any call, as a parameter of the call decides.
* Money and token counts are real numbers. Time is an integer instant. Where a day, month or
  year begins depends on the zone, so the calendar is a parameter of which only the laws of
  truncation are used; `PlainZoneIsLawful` shows that they can be met.
* Database ids are numbers from one counter; of their printed form only injectivity is used.
* `Db` carries three facts about its past: which instance was created for which request, and
  which grants and revocations the provider made. Nothing reads them but the theorems.

Where code and documentation differ, the model follows the code:

* `internal/orchestrator/mcp.go:121-123` describes the grant's expiry as something the reaper
  enforces; the reaper (`internal/orchestrator/ai.go:572-595`) visits AI instances only, and
  an MCP expiry takes effect when the grant is authorized. Granting again to an owner whose
  active grant has expired returns that grant unchanged, so the owner stays out:
  `Mcp.GrantAuthorizes` gives the exact condition.
* The LiteLLM import takes any failure of its lookup for "no row yet"
  (`internal/orchestrator/ai_governance.go:767-775`), so "one row per key"
  (`internal/db/ai.sql.go:453-454`) holds exactly unless a lookup fails, and the write does
  not, on a key that has a row: `LiteLlm.StoreKeepsOneRow`, over histories
  `LiteLlm.OneRowAfterAnyImports`.
* A card-shaped run that fails the checksum is copied whole, and a valid card number that
  starts inside it with it (`internal/orchestrator/ai_dlp.go:69-76`), so not every card number
  is redacted: `Cards.BodyWithCardUnchanged` is such a body, `Cards.BodyHoldsCardExactly` the
  exact condition, `Cards.NoFailingRunCleanBody` one that can be checked on the prompt.
* An access is granted by the provider before its row is inserted
  (`internal/orchestrator/ai.go:420-451`); it stands upstream without a row exactly if that insert
  fails: `Admission.GrantsHaveInstances`.
* An access id decodes to what was granted (`internal/aiproviders/anthropic/anthropic.go:243-246`)
  exactly when the workspace id neither contains `:user:` nor ends in `:user`:
  `AccessIds.WorkspaceAccessRoundTrip`.
* Granting and revoking gives back the organization exactly when the user had no explicit
  membership before; an earlier one is overwritten by the upsert and then removed:
  `Grants.GrantThenRevoke`.
* Token and cost quotas are checked before a call and charged after it, so they can be overshot;
  `Gateway.GatewayOvershootIsBounded` and `GatewayCost.CostOvershootIsBounded` say by how much,
  `Gateway.OvershootIsReached` that it happens.

## Model

| member | source | states |
|---|---|---|
| Luhn.LuhnValid | internal/orchestrator/ai_dlp.go:37-57 | The right-to-left loop over the raw text computes the checksum of its digits alone and demands at least 13 of them |
| Luhn.DigitsConcat | internal/orchestrator/ai_dlp.go:41-45 | The digits of a concatenation are the digits of its parts, so any text can be cut around one digit |
| Luhn.SeparatorsIgnored | internal/orchestrator/ai_dlp.go:41-45 | Inserting a non-digit anywhere never changes the verdict |
| Luhn.ChecksumUpdate | internal/orchestrator/ai_dlp.go:46-54 | Replacing one digit changes the checksum by exactly the difference of the two weights at that position |
| Luhn.SingleDigitErrorRejected | internal/orchestrator/ai_dlp.go:37-57 | Every change of one digit of a valid number is rejected |
| Luhn.AdjacentSwapDetection | internal/orchestrator/ai_dlp.go:37-57 | A swap of two neighbouring digits goes unnoticed if and only if they are equal or are 0 and 9 |
| Luhn.MistypedDigitRejected | internal/orchestrator/ai_dlp.go:37-57 | The same single-digit guarantee on the text as scanned, separators included |
| Luhn.TransposedDigitsRejected | internal/orchestrator/ai_dlp.go:37-57 | The same swap guarantee on the text, whatever separators stand between the two digits |
| Scanner.CopiedPrefix | internal/orchestrator/ai_dlp.go:61-78 | Up to its first bracket a scanner's output is its input, with word boundaries at most sharpened |
| Scanner.Reflect | internal/orchestrator/ai_dlp.go:61-78 | A match of any pattern in a partly rewritten text is already a match at the same place in the original |
| Scanner.ScanPreservesNoMatch | internal/orchestrator/ai_dlp.go:61-78 | Rewriting by one pattern never creates a match of another, neither inside a token nor across its edges |
| Scanner.RescanIsSilent | internal/orchestrator/ai_dlp.go:61-78 | A second scan by the same pattern changes and counts nothing, even when the pattern refuses some matches |
| Scanner.NoMatchIsSilent | internal/orchestrator/ai_dlp.go:61-78 | A text free of matches is left alone |
| Scanner.SilentMeansNoMatch | internal/orchestrator/ai_dlp.go:61-78 | For a pattern that refuses nothing, a scan without hits proves the text free of matches at every position |
| Pipeline.StageIsSilentAfterwards | internal/orchestrator/ai_dlp.go:61-78 | After the whole ordered pipeline no stage finds anything to redact |
| Pipeline.RedactIsIdempotent | internal/orchestrator/ai_dlp.go:61-78 | Redacting a redacted text changes nothing and counts no hit |
| Pipeline.RedactWithoutHits | internal/orchestrator/ai_dlp.go:85-95 | No hits means the text was not changed, so the original may stand for it |
| Pipeline.FillInvertsScan | internal/orchestrator/ai_dlp.go:61-78 | Putting the removed matches back in place of the tokens restores the input; the hits count the removed matches |
| Pipeline.RedactionKeepsTheRest | internal/orchestrator/ai_dlp.go:61-78 | The same for the pipeline: nothing but the matches is touched, moved or dropped |
| Patterns.PatternFits | internal/orchestrator/ai_dlp.go:21-34 | A match of any of the nine expressions is non-empty, has no bracket, cannot be part of a token, and ends as its word boundaries require |
| Patterns.PatternsOrderly | internal/orchestrator/ai_dlp.go:21-34 | The nine patterns in their order meet every condition of the pipeline theorems |
| Secrets.PatternIsForm | internal/orchestrator/ai_dlp.go:21-34 | Each of the nine languages consists of exactly the texts put together from parts: both AWS prefixes with sixteen more, the four private-key headers, key tails of at least twenty characters, three token parts, 3-2-4 digits, local part, domain and an ending of two letters or more, both card shapes with every choice of separators |
| Secrets.FormIsRedacted | internal/orchestrator/ai_dlp.go:61-78 | Whatever stands around it, a text of one of the first eight forms between word boundaries does not go through: there is a hit, the text changes and no such form is left |
| Secrets.FormAloneIsRedacted | internal/orchestrator/ai_dlp.go:61-78 | On its own a text of any of the nine forms - a card number passing the checksum - leaves the redaction with a hit and not as itself |
| Secrets.FormBecomesToken | internal/orchestrator/ai_dlp.go:61-78 | If no earlier pattern finds anything in it, it becomes exactly the token of its own pattern, with one hit |
| Dlp.RedactDlpString | internal/orchestrator/ai_dlp.go:61-78 | The loop over the patterns yields the redacted text and adds exactly its hits to the table |
| Dlp.WalkIsIdempotent | internal/orchestrator/ai_dlp.go:85-121 | Redacting a redacted JSON tree changes nothing and counts no hit |
| Dlp.NoHitsNoChange | internal/orchestrator/ai_dlp.go:92-95 | A tree without hits is unchanged, so forwarding the original bytes loses no redaction |
| Dlp.RedactedBodyIsFree | internal/orchestrator/ai_dlp.go:21-121 | No string of a redacted tree holds a match of the first eight patterns at any position, and a second card scan of it is silent; what cards remain is the subject of the rows on cards |
| Refusals.LeftExactlyIfSwallowed | internal/orchestrator/ai_dlp.go:69-76 | For a scan that refuses some matches, an acceptable match is left in the output if and only if one starts inside a refused run the scan visits and is not touched by a later replacement |
| Refusals.NothingRefusedNothingLeft | internal/orchestrator/ai_dlp.go:69-76 | If the input holds no match that would be refused, the output holds no match at all |
| Cards.CardLeftExactly | internal/orchestrator/ai_dlp.go:61-78 | A redacted string holds a card-shaped run that passes the checksum if and only if the card scan, on a run that fails it, steps over the beginning of one and replaces no part of it later |
| Cards.StrictlyInside | internal/orchestrator/ai_dlp.go:34 | What is stepped over starts strictly inside the failing run, since at most one card-shaped run starts at a position |
| Cards.NoFailingRunNothingLeft | internal/orchestrator/ai_dlp.go:61-78 | If no card-shaped run of a string fails the checksum, its redaction holds no match of any of the nine patterns |
| Cards.BodyHoldsCardExactly | internal/orchestrator/ai_dlp.go:85-121 | The if-and-only-if for whole redacted bodies |
| Cards.NoFailingRunCleanBody | internal/orchestrator/ai_dlp.go:85-121 | The sufficient condition for whole redacted bodies |
| Cards.CardSteppedOver | internal/orchestrator/ai_dlp.go:69-76 | An input at which a card remains: the scan leaves "1234 4111 1111 1111 1111" as it is, although its last four groups pass |
| Cards.BodyWithCardUnchanged | internal/orchestrator/ai_dlp.go:85-121 | A body with that string is forwarded unchanged, with no hit, and holds a valid card number |
| Dlp.PromptSurvivesRedaction | internal/orchestrator/ai_dlp.go:61-78 | A prompt without tokens is recovered from its redaction and the removed texts |
| DlpTree.WalkRedact | internal/orchestrator/ai_dlp.go:104-121 | The in-place walk leaves the same containers holding the redacted value and adds its hits |
| DlpTree.WalkCells | internal/orchestrator/ai_dlp.go:108-117 | The range loops overwrite each cell by its redaction and disturb no other |
| DlpTree.ApplyGatewayDlp | internal/orchestrator/ai_governance.go:1082-1111 | The original is forwarded only if redaction is off, the body is not JSON or has nothing to redact; hits that cannot be encoded block the call |
| Ledger.AiCostUsd | internal/orchestrator/ai_governance.go:171-192 | The two passes compute the sum in window and scope without the estimates of settled providers |
| Ledger.CostIsSumWithoutSuperseded | internal/orchestrator/ai_governance.go:151-192 | That sum is the plain sum less exactly the gateway estimates for which some authoritative row of the same provider is in window and scope |
| Ledger.CostPermutes | internal/orchestrator/ai_governance.go:171-192 | The figure does not depend on the order of the rows |
| Ledger.CostAddsOverProviders | internal/orchestrator/ai_governance.go:171-192 | Over scopes made of whole providers the figures add up, although supersession is decided per scope |
| Ledger.GlobalIsSumOfProviders | internal/orchestrator/ai_governance.go:144-149 | The global actual is the sum of the provider-scoped actuals over the distinct folded provider names |
| Ledger.ListOwn | internal/orchestrator/ai.go:719-735 | A scoped caller sees exactly its tenant's rows, in order, and an unscoped one all |
| Ledger.SummarizeBudget | internal/orchestrator/ai_governance.go:123-139 | Actual, remainder, percentage and status of one budget, the hard threshold taking precedence |
| Ledger.ListAiBudgetSummaries | internal/orchestrator/ai_governance.go:112-142 | One summary per visible budget, in order, over the visible rows |
| Scopes.InstanceSpendCounts | internal/orchestrator/ai_governance.go:206-235 | Spend of an instance of owner o, workspace w and tenant t counts towards an owner budget exactly if that names o, towards a workspace budget if it names w, towards a tenant budget if it names t |
| Scopes.SpendMeetsGate | internal/orchestrator/ai_enforce.go:117-137 | So such spend is in the scope of an owner, workspace or tenant budget if and only if that budget covers requests by o in w for t |
| Scopes.ImportedSpendCounts | internal/orchestrator/ai_governance.go:206-235 | Imported spend, which has no instance, counts by its raw owner, workspace or workspace id |
| Scopes.BudgetsIgnoreOthers | internal/orchestrator/ai_governance.go:123-149 | Moving spend to another workspace or tenant never changes an owner budget, to another owner or tenant never a workspace budget, to another owner or workspace never a tenant budget |
| Scopes.UnknownScopeCostsNothing | internal/orchestrator/ai_governance.go:206-235 | A budget of an unknown scope costs nothing and covers nothing |
| Scopes.SummaryExact | internal/orchestrator/ai_governance.go:123-139 | Remainder and actual add up to the limit; the status is the hard limit or the warning exactly from the percentage thresholds on, also where the limit is not positive |
| Scopes.PeriodsByName | internal/orchestrator/ai_governance.go:194-204 | Daily, yearly and annual windows begin with their unit whatever the spelling of the name, every other with the month |
| Calendar.WindowMovesPast | internal/orchestrator/ai_governance.go:194-204 | A window starts within the year and not in the future, and when it moves on everything recorded before falls out of it |
| Calendar.PlainZoneIsLawful | internal/orchestrator/ai_governance.go:194-204 | The laws assumed of calendars are consistent |
| Ids.DecimalInjective | internal/orchestrator/ai_governance.go:490-515 | Different counters print differently |
| Ids.PrintInjective | internal/orchestrator/ai_governance.go:490-515 | Different signed times print differently |
| Imports.InterruptedImportResumes | internal/orchestrator/ai_governance.go:489-517 | Rerunning an import that stopped after any number of items gives exactly the ledger of one uninterrupted run |
| Imports.ImportIsIdempotent | internal/orchestrator/ai_governance.go:489-517 | Importing the same report twice is importing it once |
| Imports.ImportKeepsOneRowPerKey | internal/db/ai.sql.go:474-482 | An import keeps at most one row per provider, period, metric and key |
| Imports.FirstAmountIsStored | internal/orchestrator/ai_governance.go:495-515 | The row under a key carries the amount first seen for it |
| Imports.DistinctItemsAllStored | internal/orchestrator/ai_governance.go:489-517 | New items with different keys are all stored, in order |
| Imports.AnyRunsKeepTheLedger | internal/orchestrator/ai_governance.go:844-925 | Over any sequence of runs, cut short anywhere, there is one row per key and no stored row is ever changed, moved or dropped |
| Imports.OpenAiKeyInjective | internal/orchestrator/ai_governance.go:490-494 | The printed key determines bucket start, bucket end and index, whatever colons project and line item contain |
| Imports.PayloadKeysDistinct | internal/orchestrator/ai_governance.go:490-494 | The lines of a report of distinct buckets have pairwise different keys |
| Imports.FreshPayloadFullyImported | internal/orchestrator/ai_governance.go:489-517 | Such a report imported into an empty ledger skips nothing and stores its full total |
| Imports.ReportKeysDistinct | internal/orchestrator/ai_governance.go:884-897 | The lines of a cost report of distinct periods never share period and key, whatever colons its texts contain |
| Imports.FreshReportFullyImported | internal/orchestrator/ai_governance.go:844-925 | A paged report of distinct periods imported into an empty ledger skips nothing and stores its full total |
| Imports.UsageStore.ImportOne | internal/orchestrator/ai_governance.go:494-515 | One item is skipped if its key is known and inserted otherwise, with the right counter; a failing call changes nothing |
| Imports.UsageStore.ImportOpenAiCosts | internal/orchestrator/ai_governance.go:489-517 | A run handles a prefix of the report, all of it unless a call fails; Imported and Skipped add up to the items handled and Imported counts the new rows |
| Imports.UsageStore.ImportBucket | internal/orchestrator/ai_governance.go:884-919 | The same over one bucket of a cost report, passing over amounts that do not parse |
| Imports.UsageStore.ImportPage | internal/orchestrator/ai_governance.go:884-920 | The same over one page |
| Imports.UsageStore.ImportAnthropicCosts | internal/orchestrator/ai_governance.go:844-925 | The same over the pages of the report, of which at most forty are followed |
| LiteLlm.SpendStore.ImportLiteLlmSpend | internal/orchestrator/ai_governance.go:745-780 | The loop stores each reporting active key's total and returns how many reported and their sum |
| LiteLlm.StoreKeepsOneRow | internal/orchestrator/ai_governance.go:762-775 | Storing keeps one spend row per key if and only if it does not happen that the lookup fails and the write works on a key that has one |
| LiteLlm.StoreHoldsTotal | internal/orchestrator/ai_governance.go:767-775 | A write that works leaves a row with the new total, stamped now |
| LiteLlm.OneRowUnlessDoubled | internal/orchestrator/ai_governance.go:745-776 | The equivalence for a whole import, whatever faults it meets |
| LiteLlm.StoreLeavesOthers | internal/db/ai.sql.go:1549-1553 | No other key's row is touched |
| LiteLlm.SpendCountedOnce | internal/orchestrator/ai_governance.go:745-776 | After an import every key has at most one spend row, exactly unless one was doubled, and each reporting key whose write works has its latest lifetime total |
| LiteLlm.StampedRowIsInWindow | internal/orchestrator/ai_governance.go:194-204 | That row starts inside the daily, monthly and yearly window of its import |
| LiteLlm.OneRowAfterAnyImports | internal/db/ai.sql.go:444-454 | Over any history of imports with any faults, every key has at most one row if and only if at no import a failing lookup met an existing row and a working write |
| Supersession.ReportSupersedes | internal/orchestrator/ai_governance.go:151-192 | Once a cost report with a line in the window is imported, every gateway estimate of that provider in the window counts nothing |
| Supersession.ReportReplacesEstimates | internal/orchestrator/ai_governance.go:171-192 | A ledger of gateway estimates shows after an import the amounts of the report alone if a line of it is in the window, the estimates alone if none is |
| Supersession.GatewayRowsAreEstimates | internal/orchestrator/ai_governance.go:1141-1162 | The row of a gateway call is an estimate, never an authoritative figure |
| Supersession.ReportTotal | internal/orchestrator/ai_governance.go:503-517 | A dollar report brings in the sum of its amounts |
| Supersession.CentsBecomeDollars | internal/orchestrator/ai_governance.go:888-914 | A report in cents brings in a hundredth of them, amounts that do not parse left out |
| Supersession.WorkspaceBudgetCountsLine | internal/orchestrator/ai_governance.go:902-914 | A workspace budget counts the lines of a cost report whose workspace it names, by id or by listed name |
| Supersession.OthersNotImported | internal/orchestrator/ai_governance.go:745-776 | Keys that are not active, belong to another provider or report nothing are neither stored nor counted |
| Supersession.KeyCounts | internal/orchestrator/ai_governance.go:745-780 | Every other key is counted with what it reports |
| Governance.EvaluatePolicies | internal/orchestrator/ai_enforce.go:160-176 | The policy loop collects the visible active deny rules that select the request |
| Governance.CountActive | internal/orchestrator/ai_enforce.go:195-204 | The nested loop counts the active instances a quota concerns |
| Governance.EvaluateQuotas | internal/orchestrator/ai_enforce.go:178-214 | The quota loop with its lazily fetched instance list yields the reached quotas, blocking ones apart from reported ones |
| Governance.EvaluateBudgets | internal/orchestrator/ai_enforce.go:216-229 | The budget loop yields the exhausted budgets that cover the request, and those near their limit |
| Governance.EvaluateAiGovernance | internal/orchestrator/ai_enforce.go:157-239 | The three loops together give the hard and soft reasons, and block exactly when the verdict does |
| Governance.VerdictIsExact | internal/orchestrator/ai_enforce.go:157-239 | A request is blocked if and only if a visible active deny rule with a selector matches it, a block quota on seats is used up, or a budget covering it is at its hard limit |
| Scopes.ReasonsExact | internal/orchestrator/ai_enforce.go:157-239 | What the verdict lists: hard are exactly the policies, block quotas on seats used up by the instances counted and budgets at their hard limit that select the request, soft exactly the other used-up quotas and the budgets near their limit |
| Scopes.DeniesExactly | internal/orchestrator/ai_enforce.go:60-106 | A policy denies exactly if it is active, does not allow, names something, and each kind of selector it uses names the request; an empty kind selects everything |
| Scopes.DomainRuleBlocks | internal/orchestrator/ai_enforce.go:60-106 | A rule that denies one owner domain blocks exactly the owners whose address ends in it |
| Scopes.OwnerDomain | internal/orchestrator/ai_enforce.go:108-115 | The domain of an owner is what stands behind the last @ |
| Scopes.RequestsCovered | internal/orchestrator/ai_enforce.go:117-137 | Which requests a budget of each scope covers |
| Governance.VerdictIgnoresOrder | internal/orchestrator/ai_enforce.go:157-239 | The verdict is the same whatever the order of policies, quotas, instances, budgets and usage |
| Governance.TenantsDoNotInterfere | internal/orchestrator/tenant.go:26-37 | Two databases that agree on a tenant's rows give that tenant the same reasons and budget figures, whatever other tenants hold |
| Gateway.AiQuotaUsage | internal/orchestrator/ai_enforce.go:294-309 | Usage of a quota in its window: tokens of its metric, or the cost sum for a cost quota |
| Gateway.EvaluateGatewayBudget | internal/orchestrator/ai_enforce.go:245-288 | A call is refused if and only if a global or provider budget covering it is at its hard limit or a block quota on tokens or cost is used up |
| GatewayUsage.RefusedExactly | internal/orchestrator/ai_enforce.go:245-288 | Budgets of an owner, workspace or tenant, quotas on anything but tokens or cost and quotas that only warn never refuse a call; all others do exactly when exhausted |
| Gateway.GatewayService.AdmitCall | internal/orchestrator/ai_governance.go:967-990 | The check before a call is the admit step of the protocol |
| Gateway.GatewayService.RecordGatewayUsage | internal/orchestrator/ai_governance.go:1113-1163 | The record after a call is its respond step, with the field fallbacks and the bodies that leave no row |
| GatewayUsage.PartsAreAdded | internal/orchestrator/ai_governance.go:1127-1139 | A body with input i and output o alone, i + o not zero, leaves one row of i + o tokens and raises the window by exactly that |
| GatewayUsage.OlderPartsAreAdded | internal/orchestrator/ai_governance.go:1127-1139 | So does one with prompt and completion alone |
| GatewayUsage.TotalIsTaken | internal/orchestrator/ai_governance.go:1135-1139 | A total that is not zero is recorded as it is, whatever the parts say |
| GatewayUsage.TotalMayBeLeftOut | internal/orchestrator/ai_governance.go:1127-1139 | Leaving out a total that equals the sum of the parts leads to the same state, whichever spelling each part has |
| GatewayUsage.NothingReportedNothingRecorded | internal/orchestrator/ai_governance.go:1113-1139 | A body that does not decode or reports nothing leaves no row |
| Gateway.AdmittedBelowLimit | internal/orchestrator/ai_enforce.go:267-287 | A call is admitted only while recorded tokens are below the limit |
| Gateway.TickKeepsBound | internal/orchestrator/ai_governance.go:194-204 | A period rollover keeps the bound: what was recorded before falls out of the window |
| Gateway.StepKeepsBound | internal/orchestrator/ai_governance.go:967-1007 | Every step - admit, respond, fail, import, seed, clock - keeps the bound |
| Gateway.GatewayOvershootIsBounded | internal/orchestrator/ai_governance.go:967-1007 | In every interleaving with at most k calls in flight of at most m tokens each, windowed tokens plus m per call in flight stay below limit plus k times m plus what provisioning itself recorded |
| Gateway.OvershootIsReached | internal/orchestrator/ai_governance.go:967-1007 | The bound is sharp: however small the limit, n calls admitted before the first answer record n times m tokens |
| Ledger.CostGrowsAtMost | internal/orchestrator/ai_governance.go:171-192 | New rows raise a figure by at most their cost, whatever they settle |
| Ledger.CostRestatedAtMost | internal/orchestrator/ai_governance.go:767-768 | So does updating a spend row in place |
| GatewayCost.CostOvershootIsBounded | internal/orchestrator/ai_enforce.go:267-287 | For a blocking cost quota, in every interleaving with at most k calls in flight of at most cost c each, windowed spend plus c per call in flight stays below limit plus k times c plus what imports and provisioning brought in |
| AccessService.Service.CreateAiRequest | internal/orchestrator/ai.go:332-378 | The method is its step of the state machine - gate first, then one pending request, or an error and no change - and so keeps the invariant, every decision, every revocation and all live access |
| Requests.CreationStores | internal/orchestrator/ai.go:332-378 | A successful creation adds one request under the next id and nothing else: pending, with the name, requester, tenant, workspace and end of the call, the service looked up and the owner named or else the requester, while nothing stood against that access; a failed one changes nothing |
| Requests.PendingStays | internal/orchestrator/request.go:81-154 | While a request stays pending no run changes anything about it |
| Requests.ApprovedAsAsked | internal/orchestrator/ai.go:332-458 | Create, any run that leaves the request pending, a successful approval: the one new instance is of the service asked for, with the owner, workspace, tenant and exactly the end asked for, or the default days of the service if none was |
| AccessService.Service.AskProvider | internal/orchestrator/ai.go:382-429 | Lookups, gate and provider call come to the refusal or the granted instance of the step |
| AccessService.Service.ProvisionAiRequest | internal/orchestrator/ai.go:382-458 | The method is the provisioning step: the provider grants, then the row is inserted; a failed insert leaves the grant upstream without a row |
| AccessService.Service.ProvisionApproved | internal/orchestrator/request.go:96-131 | Decide, provision, then record the outcome if that write works |
| AccessService.Service.ApproveRequest | internal/orchestrator/request.go:81-131 | The method is its step of the state machine - with its failures at each of the three writes - and so keeps the invariant, every decision, every revocation and all live access |
| Requests.ApprovalDecides | internal/orchestrator/request.go:81-131 | A request approved names who decided; it ends completed and naming its instance if access was granted and recorded, failed otherwise, unless that last write fails |
| AccessService.Service.RejectRequest | internal/orchestrator/request.go:134-154 | The method is its step of the state machine - one decision on a pending request - and so keeps the invariant, every decision, every revocation and all live access |
| Requests.RejectionDecides | internal/orchestrator/request.go:134-154 | Rejecting decides exactly the pending request of that name, with the actor and the reason given, and touches nothing else |
| AccessService.Service.RevokeAiInstance | internal/orchestrator/ai.go:670-717 | The method is its step of the state machine - provider first, row afterwards - and so keeps the invariant, every decision, every revocation and all live access |
| Requests.RevocationExact | internal/orchestrator/ai.go:670-717 | A revocation succeeds exactly on live access whose provider call and write work; without the write only the confirmation of the provider remains |
| AccessService.Service.RecertifyAiInstance | internal/orchestrator/ai.go:643-667 | The method is its step of the state machine - a new end for live access only - and so keeps the invariant, every decision, every revocation and all live access |
| AccessService.Service.ReapExpiredAiInstances | internal/orchestrator/ai.go:572-595 | The method is its step of the state machine - the loop over listed instances, with its count - and so keeps the invariant, every decision, every revocation and all live access |
| AccessService.Service.DeleteAiProvider | internal/orchestrator/ai.go:194-218 | The method is its step of the state machine - with its failures between the two deletes - and so keeps the invariant, every decision, every revocation and all live access |
| Requests.DeletionExact | internal/orchestrator/ai.go:194-218 | A deletion succeeds only while no access of the provider is live, and takes exactly its services, their instances and quotas, and all its usage along |
| LifecycleRuns.StepConsistent | internal/orchestrator/request.go:81-154 | Every call of the lifecycle keeps the invariant tying requests, created instances, stored instances, services and providers together |
| LifecycleRuns.EveryRunIsConsistent | internal/orchestrator/request.go:81-154 | The invariant holds after every run |
| LifecycleRuns.FreshDatabaseConsistent | internal/orchestrator/request.go:81-154 | In particular in every state reachable from an empty database |
| LifecycleRuns.RequestYieldsItsInstance | internal/orchestrator/request.go:81-131 | A request yields no instance ever while pending, rejected or failed; when completed exactly the one its resource reference names; when its outcome could not be recorded at most one |
| LifecycleRuns.StepEvolves | internal/orchestrator/ai.go:670-717 | No call takes back a decision, changes a revoked instance, brings a deleted one back, or deletes a live one |
| LifecycleRuns.RunEvolves | internal/orchestrator/ai.go:670-717 | The same over any run: decided requests are final and revoked is terminal |
| LifecycleRuns.ConfirmedOnlyByProvider | internal/orchestrator/ai.go:702-711 | A revocation counts as confirmed only after a revoke or reap of that instance whose provider call succeeded; with the invariant, no instance reads revoked otherwise |
| Admission.NewAccessIsGoverned | internal/orchestrator/ai.go:382-458 | Whatever call of any consistent state brings an instance into being, it is the approval of its pending request, of the service asked for, with owner, workspace, tenant and end as the request asks or their fallbacks, while no policy, quota or budget stood against exactly that access |
| Admission.ApprovalCompletes | internal/orchestrator/request.go:81-116 | A successful approval creates exactly that one instance, records who decided, and leaves every other request alone |
| Admission.OthersCreateNothing | internal/orchestrator/ai.go:572-717 | No other call creates an instance |
| Admission.StepUnrecorded | internal/orchestrator/ai.go:417-451 | A step leaves access granted upstream without an instance if and only if it was so before or the insert of that very step failed after the grant |
| Admission.GrantsHaveInstances | internal/orchestrator/ai.go:417-451 | In every reachable state a request the provider granted has its instance on record exactly unless an insert failed after the grant, and no instance is on record that the provider did not grant |
| Expiry.ReapExact | internal/orchestrator/ai.go:572-595 | A pass revokes exactly the due instances for which neither provider nor database fails, returns their number and changes no other |
| Expiry.NothingOverdueAfterReap | internal/orchestrator/ai.go:572-639 | After a pass without failures a review at the same time flags nothing overdue and a second pass does nothing |
| Expiry.ListAiAccessReview | internal/orchestrator/ai.go:610-639 | The review's loop lists the live instances in order, each with the first flag that applies |
| Expiry.ReviewListExact | internal/orchestrator/ai.go:604-639 | An instance is on the list with a flag if and only if it is active or suspended and deserves it: no end, an end before now, an end within the horizon, or a far end and an age of at least the horizon, which is ninety days by default |
| Expiry.RecertifiedSurvives | internal/orchestrator/ai.go:572-667 | Recertifying a live instance keeps it, with nothing changed but the new end - the window asked for, ninety days by default - through every run in which it is not revoked or recertified again and the reaper runs only before that end |
| SeatCap.AdmittedInstanceFits | internal/orchestrator/ai_enforce.go:178-214 | An instance passes the gate only while the counted active instances are below a block quota's limit |
| SeatCap.StepKeepsCap | internal/orchestrator/ai.go:409-449 | Every call keeps the counted active instances at or below the limit rounded up |
| SeatCap.SeatCapHolds | internal/orchestrator/ai_enforce.go:178-214 | Every run, changes of other quotas, policies and budgets included, during which a blocking quota of limit L on seats stands, keeps the active instances that use it up below L + 1 if they started there |
| Mcp.Registry.RegisterMcpServer | internal/orchestrator/mcp.go:42-75 | The method is the register step: trimmed name, default tier, duplicates refused; the invariant is kept |
| Mcp.Registry.SetMcpServerStatus | internal/orchestrator/mcp.go:95-107 | The method is the status step; the invariant is kept |
| Mcp.Registry.DeleteMcpServer | internal/orchestrator/mcp.go:109-119 | The method is the delete step: the server's grants go with it; the invariant is kept |
| Mcp.Registry.GrantMcpAccess | internal/orchestrator/mcp.go:124-152 | The method is the grant step: an active grant of the owner is returned instead of a second one; the invariant is kept |
| Mcp.Registry.RequestMcpAccess | internal/orchestrator/mcp.go:157-179 | The method is the request step: an open or granted one is returned instead of a second one; the invariant is kept |
| Mcp.Registry.DecideMcpGrant | internal/orchestrator/mcp.go:182-226 | Approve, reject and revoke set the status of the grant named and of no other; the invariant is kept |
| Mcp.Registry.AuthorizeMcp | internal/orchestrator/mcp.go:232-274 | The early returns allow exactly if the server is enabled, the newest active grant of the owner has not expired and the tool passes |
| Mcp.RunConsistent | internal/orchestrator/mcp.go:124-226 | Over any run a stored grant's status is the one its last status-setting event gave it, and grants belong to stored servers |
| Mcp.AuthorizationIsSound | internal/orchestrator/mcp.go:232-274 | In every reachable state an authorization rests on an enabled server of that name, a tool that is blank, unrestricted or listed, and a grant in force for the folded owner whose last event was a grant or an approval |
| Mcp.AuthorizedExactly | internal/orchestrator/mcp.go:232-274 | In every reachable state an agent is let in to a stored server if and only if it is enabled, the newest active grant of the owner is in force, and the tool is blank, unrestricted or equal to a listed one after trimming and folding |
| Mcp.ApprovalLetsIn | internal/orchestrator/mcp.go:182-195 | Approving the request of an owner without another active grant lets that owner in |
| Mcp.RevocationShutsOut | internal/orchestrator/mcp.go:191-226 | Revoking or rejecting the only active grant shuts the owner out |
| Mcp.DisablingShutsOut | internal/orchestrator/mcp.go:95-107 | Disabling a server shuts everybody out |
| Mcp.RegistrationStores | internal/orchestrator/mcp.go:42-75 | Registering stores an enabled server under the trimmed name, with the given tools and the lowered tier, medium by default, and no grants |
| Mcp.GrantAuthorizes | internal/orchestrator/mcp.go:124-152 | Checked before the call: after a successful grant the owner is authorized if and only if the newest active grant on file has not expired or, when there is none, the expiry asked for has not passed |
| Mcp.GrantingAgainStaysOut | internal/orchestrator/mcp.go:124-152 | A reachable run in which the second grant succeeds with a later end and the owner stays out |
| Mcp.RequestsNeverAuthorize | internal/orchestrator/mcp.go:157-179 | Without a grant or an approval no run authorizes anyone |
| Mcp.ReregistrationStartsAfresh | internal/orchestrator/mcp.go:109-119 | A server deleted and registered again carries no authorization over |
| OrgAdmin.AdminList | internal/aiproviders/anthropic/admin.go:85-112 | Over distinct non-blank ids the cursor loop returns the first 5000 items in order, failing exactly if a page it needs cannot be fetched |
| OrgAdmin.PageIsNextHundred | internal/aiproviders/anthropic/admin.go:88-110 | Asking after the last id seen yields the next hundred items, none skipped or repeated |
| OrgAdmin.EffectiveWorkspaceAccess | internal/aiproviders/anthropic/admin.go:296-340 | Its loops compute the effective access of the first 5000 members and users, or fail exactly on a blank workspace or a missing page |
| OrgAdmin.ListedAccessIsWhole | internal/aiproviders/anthropic/admin.go:296-340 | That is the access of all of them if and only if no member is cut off and the users cut off inherit no role and, where members, have no address and org role to show |
| OrgAdmin.EffectiveAccessExact | internal/aiproviders/anthropic/admin.go:292-340 | Listed are every explicit member with the explicit role and the address and org role of the user with that id, every other admin as workspace_admin, every other billing user as workspace_billing, and nobody else |
| OrgAdmin.EffectiveAccessOnce | internal/aiproviders/anthropic/admin.go:296-340 | Nobody is listed twice |
| OrgAdmin.ByIdExact | internal/aiproviders/anthropic/admin.go:313-326 | A member's entry carries the address and org role of the user with that id |
| AccessIds.WorkspaceAccessRoundTrip | internal/aiproviders/anthropic/anthropic.go:345-352 | A printed workspace id decodes to its workspace and user if and only if the workspace id has no ":user:" in it and does not end in ":user" |
| AccessIds.OtherFormsRoundTrip | internal/aiproviders/anthropic/anthropic.go:361-366 | Invite ids decode to their invite and governance-only ids to nothing to undo |
| AccessIds.FormsNeverCollide | internal/aiproviders/anthropic/anthropic.go:224-309 | The three printed forms, spelled out, are pairwise different for all contents |
| Grants.Provider.GrantWorkspaceAccess | internal/aiproviders/anthropic/admin.go:230-255 | Add, then update if already a member, is an upsert of the one membership; it fails, changing nothing, exactly for the listed causes |
| Grants.Provider.GrantRealAccess | internal/aiproviders/anthropic/anthropic.go:247-318 | The searches and the role upgrade carry out the planned invite, membership or refusal |
| Grants.Provider.ProvisionAccess | internal/aiproviders/anthropic/anthropic.go:215-241 | A real grant is tried exactly with an admin key, an address as owner and a named workspace; otherwise a governance-only id is issued |
| Grants.Provider.RevokeAccess | internal/aiproviders/anthropic/anthropic.go:338-367 | Parsing the id by prefixes and split undoes what it decodes to, with the reset after any removal error that mentions billing and the errors for empty and malformed ids |
| Grants.ProvisionReaches | internal/aiproviders/anthropic/anthropic.go:215-318 | Provisioning grants for real exactly with an admin key, an address as owner and a workspace name other than the placeholder; it changes at most one membership - of a user with the owner's address, in an active workspace named, with the role that fits the request and the user - or adds one invite when no listed user has the address; the id says which, and a refusal changes nothing |
| Grants.GrantGoesThrough | internal/aiproviders/anthropic/anthropic.go:247-318 | With every call up, a grant to the one listed user with the address goes through if and only if a listed workspace of that name or id is not archived and the role asked for is not the inherited one (no matter for a billing user); the user then holds the role asked for, workspace_developer if none was, workspace_admin if billing |
| Grants.RevokeUndoesGrant | internal/aiproviders/anthropic/anthropic.go:334-367 | Whatever happened since, revoking a granted id removes exactly that pair's membership, or resets a billing user's to workspace_billing |
| Grants.GrantThenRevoke | internal/aiproviders/anthropic/anthropic.go:247-367 | Grant then revoke gives back the organization if and only if the user had no explicit membership before (a billing user: had workspace_billing) |
| Grants.InviteThenRevoke | internal/aiproviders/anthropic/anthropic.go:261-363 | Revoking a pending invite leaves no trace but a used number |
| Grants.RevokeTouchesItsTarget | internal/aiproviders/anthropic/anthropic.go:338-367 | Revoking any text whatever changes at most the pair or invite it decodes to, and nothing if it fails |
| Grants.RunKeepsMatrix | internal/aiproviders/admin.go:116-124 | No run of grants and revocations creates a membership that the role matrix forbids |
| Csv.CsvCell | web/src/components/audit-export.tsx:11-16 | The rebinding steps yield the cell: defused, then quoted if needed |
| Csv.CellRoundTrip | web/src/components/audit-export.tsx:11-16 | A reader of section 2 of RFC 4180 gets the defused value back from a printed cell, whatever it contains, and stops at its end |
| Csv.LineRoundTrip | web/src/components/audit-export.tsx:24-28 | A joined row is read back as its cells |
| Csv.RowsRoundTrip | web/src/components/audit-export.tsx:29 | Joined rows are read back as those rows |
| Csv.ExportRoundTrip | web/src/components/audit-export.tsx:21-31 | The exported file is read back as the header and one row per event |
| Csv.ColumnsReadBack | web/src/components/audit-export.tsx:21-31 | Read back, the first row names the six columns and each later row shows time, actor, subject type, subject id, action and message of its event under them, a missing subject id as an empty cell |
| Csv.CellsAreDefused | web/src/components/audit-export.tsx:8-16 | No cell read back starts like a formula, and two values share a cell exactly when one is the other behind the apostrophe |

## Left out

- Grants.Provider: the remote organization is one field that the endpoint functions rewrite; they are taken to enforce the role matrix of `internal/aiproviders/admin.go:107-124` and to say "already a member" only of members; endpoints the two operations do not call are not modelled.
- DlpTree.WalkRedact: objects are visited in a fixed order of their keys (Go's order varies; the redacted values and the hit counts do not depend on it).
- Patterns.PatternsOrderly: the nine expressions are predicates on texts and a scan takes the longest match at the leftmost position; that Go's engine picks the same match is not proved.
- LifecycleRuns.EveryRunIsConsistent: every lifecycle call is one atomic step, since the updates carry no status guard (`internal/db/requests.sql.go:65-70`); callers are unscoped and the reads of the gate succeed.
- Expiry.RecertifiedSurvives: days are 24 hours long, where the code adds calendar days.
- Text: case folding and trimming are ASCII; Unicode folding and normalisation are not modelled.
- Floating-point rounding: costs, limits and percentages are real numbers.
- JSON decoding, SQL, HTTP, SHA-1, secret storage, event sinks and audit entries: foreign calls, present only as parameters or as success and failure.
- The price table, the model catalog, key masking and input validation of budgets, quotas and providers: small case splits that would only add easy members.
- The generic request creation and the ticket system of `internal/orchestrator/request.go:30-77`: only AI requests are created; approving a request of another kind fails, as in the code.
- The handlers, middleware, web pages and unused infrastructure tables: plumbing and display.
