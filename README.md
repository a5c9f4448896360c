# Cloudflare Terraform provider: WAF group search and zone cache variants

This project models two pieces of logic in the Cloudflare Terraform provider. Dafny proves properties of both models.

- **The `cloudflare_waf_groups` data source** (`WafGroups`, in `waf_groups.dfy`).
  - `expandFilterWAFGroups` turns the optional `filter` block into a search filter. The filter has an optional compiled name pattern and a mode string, and a pattern that does not compile is an error.
  - The read callback picks the packages to search: every package of the zone, or just the one given by `package_id`.
  - It walks every group of every package and keeps a group only when each criterion the filter holds passes.
  - For each kept group it appends a record, tagged with the package id, to one list and the group's id to another; the two lists grow in step.
  - It stores the records in `groups` and sets the ID to a checksum of the id list. Any API error stops the read with a diagnostic, before anything is written.
- **The `cloudflare_zone_cache_variants` resource** (`ZoneCacheVariants`, in `zone_cache_variants.dfy`).
  - `cacheVariantsValuesFromResource` fills the eleven image-format fields of the API payload (avif … webp). Each field is set from the same-named state key when that key is set, and is left empty otherwise.
  - Read treats an API error whose text contains `HTTP status 404` as "gone": it clears the ID and succeeds. It reports every other error. On success it writes the eleven fields back, one `Set` call per key, and stops at the first key the schema refuses.
  - Update (also the Create callback) sets the ID to the zone ID, sends the payload, reports an API error, and otherwise reads back.
  - Delete forwards the deletion and reports every API error.

`common.dfy` (`Common`) holds the shared option and result types, the API error, and Go's `strings.Contains`. `Contains` is proved against the plain meaning "occurs at some offset".

State the provider changes in place is modelled as classes:
- `WafGroupsData` and `ResourceData` stand for the framework's `ResourceData`, with `Set` and `SetId` methods.
- Each module's `Client` stands for the API client. Its answers are inputs (constant functions), and it records every call in a `log`.

The WAF read and the cache-variants Read are methods proved against ghost functions of their inputs, both named `ReadSpec`. For the WAF read, `ReadCalls` gives the API calls it makes. Update and Delete state their new state and calls directly in their contracts. The lemmas state the properties of those functions. The regular-expression engine and the checksum are parameters that are left uninterpreted.

In `resource_cloudflare_zone_cache_variants.go`, the callbacks return `fmt.Errorf` values where `diag.Diagnostics` is declared, and Update calls Read without its context argument. The model follows the evident intent: a diagnostic on error, none on success.

The zone cache variants Delete reports every API error, a 404 included, and leaves the ID in place. The model follows the code, not the idea that a delete of an absent resource succeeds and clears the ID.

## Model

| member | source | states |
|---|---|---|
| Common.Contains | cloudflare/resource_cloudflare_zone_cache_variants.go:31 | the result is true exactly when the marker occurs at some offset of the error text |
| WafGroups.FilterOf | internal/sdkv2provider/data_source_waf_groups.go:155-179 | an empty block list or a nil first element gives no pattern and mode ""; a `name` that does not compile gives an error naming it; otherwise the pattern is present exactly when `name` is, built from it, and the mode is `mode` verbatim or "" |
| WafGroups.ExpandFilter | internal/sdkv2provider/data_source_waf_groups.go:155-179 | filling the zero filter field by field yields exactly the filter (or error) described above |
| WafGroups.Keep | internal/sdkv2provider/data_source_waf_groups.go:124-131 | a group is kept when it passes the name pattern (if any) and the mode (if not ""), the negation of the two `continue` guards; its meaning is stated by KeptMembers |
| WafGroups.Detail | internal/sdkv2provider/data_source_waf_groups.go:133-141 | the record of a kept group copies its six fields and adds the enclosing package's id |
| WafGroups.Kept | internal/sdkv2provider/data_source_waf_groups.go:124-143 | the kept records of one package's groups, in list order, never more than the groups listed |
| WafGroups.Search | internal/sdkv2provider/data_source_waf_groups.go:118-144 | the records kept over the packages in package order, or the first group-list error; its properties are the lemmas below |
| WafGroups.GroupCalls | internal/sdkv2provider/data_source_waf_groups.go:118-122 | the group-list calls of the search, one per package up to and including the first failure, never more than the packages |
| WafGroups.Ids | internal/sdkv2provider/data_source_waf_groups.go:142 | the ids of the records in order, as many as the records |
| WafGroups.ReadSpec | internal/sdkv2provider/data_source_waf_groups.go:91-153 | the outcome of the read: the filter error, the package-list error, the first group-list error or the refused `groups` with the old state, otherwise the search's records and the checksum of their ids |
| WafGroups.ReadCalls | internal/sdkv2provider/data_source_waf_groups.go:96-122 | the calls of the read: none after a pattern error, the package list when no package id is given, then the search's group lists |
| WafGroups.NoCriteriaKeepsAll | internal/sdkv2provider/data_source_waf_groups.go:124-131 | with neither pattern nor mode every group is kept, in order, as its record |
| WafGroups.KeptSplit | internal/sdkv2provider/data_source_waf_groups.go:124-143 | filtering a concatenated group list is filtering each part and concatenating, so list order is preserved |
| WafGroups.KeptMembers | internal/sdkv2provider/data_source_waf_groups.go:124-141 | a record is kept if and only if it is the record of a listed group passing both criteria (no pattern or a match, and no mode or an equal mode); every kept record carries the package's id |
| WafGroups.SearchConcat | internal/sdkv2provider/data_source_waf_groups.go:118-144 | searching two package lists in a row gives the first's records then the second's, and the first error wins |
| WafGroups.KeptStep | internal/sdkv2provider/data_source_waf_groups.go:124-143 | one more group appends its record exactly when it passes the filter |
| WafGroups.IdsAppend | internal/sdkv2provider/data_source_waf_groups.go:133-142 | appending a record appends its id to the id list |
| WafGroups.ErrorStops | internal/sdkv2provider/data_source_waf_groups.go:119-122 | once a group list fails, the search has failed with that error and requests no further list |
| WafGroups.FailingPackage | internal/sdkv2provider/data_source_waf_groups.go:119-122 | a package whose group list fails ends the whole search with that error, its list call being the last |
| WafGroups.PackageStep | internal/sdkv2provider/data_source_waf_groups.go:118-143 | a package whose group list succeeds appends its kept records after those found so far, and its list call after the calls so far |
| WafGroups.SearchByPackage | internal/sdkv2provider/data_source_waf_groups.go:118-143 | a successful search listed every package's groups without error, and ends with the last package's kept records after those of the packages before it |
| WafGroups.SearchMembers | internal/sdkv2provider/data_source_waf_groups.go:118-143 | a record is in a successful search's result if and only if it is kept from the group list of one of the searched packages |
| WafGroups.IdsLockstep | internal/sdkv2provider/data_source_waf_groups.go:133-142 | the id list has the records' length and its i-th entry is the i-th record's id |
| WafGroups.GroupCallsInOrder | internal/sdkv2provider/data_source_waf_groups.go:118-122 | a successful search requests each package's groups exactly once, in package order |
| WafGroups.PatternErrorComesFirst | internal/sdkv2provider/data_source_waf_groups.go:96-99 | a name that does not compile is reported before any API call and leaves `groups` and the ID unchanged |
| WafGroups.FailureLeavesState | internal/sdkv2provider/data_source_waf_groups.go:96-151 | whenever a diagnostic is returned, `groups` and the ID are unchanged |
| WafGroups.Packages | internal/sdkv2provider/data_source_waf_groups.go:102-113 | the packages to search: the zone's list when `package_id` is empty, otherwise just the given id; its meaning is stated by OnePackageSearched, AllPackagesSearched and PackageListFailure |
| WafGroups.OnePackageSearched | internal/sdkv2provider/data_source_waf_groups.go:102-113 | with a package id, the only call is the group list of that package; its error is reported, otherwise the result is that package's kept records |
| WafGroups.AllPackagesSearched | internal/sdkv2provider/data_source_waf_groups.go:102-122 | without a package id, the zone's package list is requested first, then each listed package's groups once in order; a read without diagnostic stores the search over all listed packages |
| WafGroups.PackageListFailure | internal/sdkv2provider/data_source_waf_groups.go:104-110 | without a package id, a failing package list is reported after that single call, with `groups` and the ID unchanged |
| WafGroups.SuccessStoresChecksum | internal/sdkv2provider/data_source_waf_groups.go:146-152 | a read without diagnostic had its `groups` accepted and sets the ID to the checksum of the stored records' ids, and of nothing else |
| WafGroups.BotExample | internal/sdkv2provider/data_source_waf_groups.go:124-131 | a `^bot` pattern with mode "on" over bot-detect/on, bot-detect/off and sql-inject/on keeps only the first group |
| WafGroups.WafGroupsData.SetGroups | internal/sdkv2provider/data_source_waf_groups.go:146-149 | the records are stored unless the schema refuses them, which is reported |
| WafGroups.WafGroupsData.SetId | internal/sdkv2provider/data_source_waf_groups.go:151 | the ID becomes the given value |
| WafGroups.Client.ListWAFPackages | internal/sdkv2provider/data_source_waf_groups.go:107 | one package-list call is recorded and its answer returned |
| WafGroups.Client.ListWAFGroups | internal/sdkv2provider/data_source_waf_groups.go:119 | one group-list call for the zone and package is recorded and its answer returned |
| WafGroups.AppendKept | internal/sdkv2provider/data_source_waf_groups.go:124-143 | the inner loop's two `continue` guards append exactly the kept records of the list after the records so far, and the ids stay in step |
| WafGroups.SearchGroups | internal/sdkv2provider/data_source_waf_groups.go:116-144 | the outer loop makes exactly the search's group-list calls and returns the search's records (or its first error) with their ids in step |
| WafGroups.Read | internal/sdkv2provider/data_source_waf_groups.go:91-153 | the read makes exactly the calls of `ReadCalls` and leaves `groups`, the ID and the diagnostic as `ReadSpec` says |
| ZoneCacheVariants.KeysDistinct | cloudflare/resource_cloudflare_zone_cache_variants.go:42-84 | the eleven state keys are pairwise distinct |
| ZoneCacheVariants.Payload | cloudflare/resource_cloudflare_zone_cache_variants.go:121-169 | the payload the format keys call for; its meaning is stated by PayloadField |
| ZoneCacheVariants.PayloadField | cloudflare/resource_cloudflare_zone_cache_variants.go:121-169 | each payload field holds the list under the same-named key, and is empty when the key is not set |
| ZoneCacheVariants.PayloadOfNoFormats | cloudflare/resource_cloudflare_zone_cache_variants.go:121-122 | with no format key set the payload is the zero value |
| ZoneCacheVariants.PayloadIndependent | cloudflare/resource_cloudflare_zone_cache_variants.go:124-166 | setting or changing one key never changes the payload field of any other format |
| ZoneCacheVariants.FieldFromResource | cloudflare/resource_cloudflare_zone_cache_variants.go:124-126 | one format's field is the key's list when GetOk reports the key set, and empty otherwise |
| ZoneCacheVariants.ValuesFromResource | cloudflare/resource_cloudflare_zone_cache_variants.go:121-169 | the payload built field by field is the payload the state's format keys call for |
| ZoneCacheVariants.IsNotFound | cloudflare/resource_cloudflare_zone_cache_variants.go:31 | an error counts as "not found" exactly when "HTTP status 404" occurs somewhere in its text |
| ZoneCacheVariants.WriteFrom | cloudflare/resource_cloudflare_zone_cache_variants.go:42-86 | the writes of the API's fields in key order; a diagnostic always names a refused key, and no key present before is removed |
| ZoneCacheVariants.WriteFromAt | cloudflare/resource_cloudflare_zone_cache_variants.go:42-84 | the writes set a format to the API's field exactly when it comes before the first refused key, and leave every other format as it was |
| ZoneCacheVariants.WriteFromDiag | cloudflare/resource_cloudflare_zone_cache_variants.go:42-86 | the writes fail exactly when some key is refused, and the diagnostic names the first refused key |
| ZoneCacheVariants.ReadSpec | cloudflare/resource_cloudflare_zone_cache_variants.go:23-87 | the outcome of Read: a 404 error clears the ID, another error is reported with the state kept, an answer is written as WriteFrom says |
| ZoneCacheVariants.ReadErrors | cloudflare/resource_cloudflare_zone_cache_variants.go:30-37 | an error containing "HTTP status 404" clears the ID with no diagnostic; any other keeps ID and formats and is reported with the zone |
| ZoneCacheVariants.ReadStoresEveryField | cloudflare/resource_cloudflare_zone_cache_variants.go:40-86 | a successful read the schema accepts writes each of the eleven API fields to the same-named key and keeps the ID |
| ZoneCacheVariants.ReadStopsAtRejectedKey | cloudflare/resource_cloudflare_zone_cache_variants.go:42-84 | a refused key stops the read: earlier keys are written, it and later keys keep their values, and the diagnostic names it |
| ZoneCacheVariants.ReadThenPayload | cloudflare/resource_cloudflare_zone_cache_variants.go:40-86 | after a successful read the payload built from the state is exactly the API's answer |
| ZoneCacheVariants.ResourceData.SetId | cloudflare/resource_cloudflare_zone_cache_variants.go:33 | the ID becomes the given value |
| ZoneCacheVariants.ResourceData.Set | cloudflare/resource_cloudflare_zone_cache_variants.go:42-44 | the list is stored under the key unless the schema refuses the key, which is reported |
| ZoneCacheVariants.Client.ZoneCacheVariants | cloudflare/resource_cloudflare_zone_cache_variants.go:28 | one get call for the zone is recorded and its answer returned |
| ZoneCacheVariants.Client.UpdateZoneCacheVariants | cloudflare/resource_cloudflare_zone_cache_variants.go:98 | one update call with the payload is recorded and its answer returned |
| ZoneCacheVariants.Client.DeleteZoneCacheVariants | cloudflare/resource_cloudflare_zone_cache_variants.go:112 | one delete call for the zone is recorded and its answer returned |
| ZoneCacheVariants.SetFormats | cloudflare/resource_cloudflare_zone_cache_variants.go:40-86 | the eleven `Set` calls in key order leave the formats and the diagnostic that the writes specify |
| ZoneCacheVariants.SetFirstFormats | cloudflare/resource_cloudflare_zone_cache_variants.go:42-64 | the calls for avif to jp2 either stop at a refused key as specified or leave the remaining writes to do |
| ZoneCacheVariants.SetLastFormats | cloudflare/resource_cloudflare_zone_cache_variants.go:66-84 | the calls for jpg2 to webp leave the formats and diagnostic the remaining writes specify |
| ZoneCacheVariants.Read | cloudflare/resource_cloudflare_zone_cache_variants.go:23-87 | one get call for the current ID, then the ID, formats and diagnostic that `ReadSpec` gives for the API's answer |
| ZoneCacheVariants.Update | cloudflare/resource_cloudflare_zone_cache_variants.go:89-105 | the ID becomes the zone ID, the payload of the state is sent; an update error is reported with the formats unchanged, otherwise a read of the zone follows |
| ZoneCacheVariants.Delete | cloudflare/resource_cloudflare_zone_cache_variants.go:107-119 | one delete call; a diagnostic exactly when the API reports an error (a 404 included), carrying that error and the ID |

## Left out

- The Cloudflare API client is not modelled. Its answers are inputs: functions from the call's arguments to a result or an error. Network behaviour, retries and pagination are out of scope.
- The regular-expression engine is not modelled. Compiling is a predicate on the pattern text, and matching is an uninterpreted relation between pattern and name.
- `stringListChecksum` is a parameter. The model claims only that the ID is that function of the ordered id list.
- `expandInterfaceToStringList` and the `*schema.Set` conversion are not modelled. The state holds each format's list of strings directly. Set semantics are not modelled: no deduplication, and no hash order.
- When a `Set` call fails, the framework's error is not modelled. A class constant names the keys (or, for `groups`, the fact) that the schema refuses. The diagnostic texts, which embed that error, are modelled only up to it.
- The regular-expression compiler's error text is not modelled. The diagnostic names the pattern instead.
- The framework fills a nested block's unset attributes with zero values. That is not modelled: the filter block's map holds exactly the attributes given.
- The schema declarations (including the "on"/"off" validation of `mode`), `internal/sdkv2provider/schema_cloudflare_pages_domain.go`, logging and the request contexts are not part of this model. They have no behaviour the callbacks depend on.
- What the framework does after a callback returns is not modelled. This includes dropping a resource whose ID was cleared, and removing state after a successful Delete.
- ResourceData.GetOk is taken as the framework defines it, not proved. A key reads as set exactly when it holds a non-empty list, because the framework reports an empty set as not set.
- The diagnostics' texts are not modelled. Each diagnostic carries the zone, the key or the API error it reports. The source's format strings quote the zone with `%q` in Read and Update and with `%v` in Delete, and that difference is not modelled.
- Common.Contains compares characters where Go's `strings.Contains` compares bytes. The two agree for the ASCII marker "HTTP status 404" on valid UTF-8 text.
