# Data platform operator: verified model

This project models, in Dafny, the parts of the data platform operator that decide who sees
what in Trino and when the platform may call itself Ready, and proves properties of them.
`dafny verify dfyconfig.toml` checks all of it.

1. **Batched authorization** (`TrinoNames`, `Lakekeeper`, `TrinoPolicy`, `TrinoBatch`,
   `BatchTheorems`, `AllowTheorems`, `BatchGaps`, `LostRequests`). The policies answer a list of
   resources at once, with warehouse-level and namespace-level fast paths, a chunked slow path
   with a table check and a view check per resource, and fallbacks for system schemas, metadata
   tables and unmanaged catalogs. LakeKeeper is an oracle from checks to answers. The batch is
   compared with `allow` evaluated one resource at a time, and both with what LakeKeeper's
   answers to spelled-out checks say, given that every request is answered; `LostRequests` is
   about requests that are not.
2. **Row filters and column masks** (`AccessSpec`, `Sql`, `RowFilters`, `RowFilterTheorems`,
   `ColumnMasks`). Spec entries become resolved JSON, and OPA turns OpenFGA's object lists into
   SQL text. A lexer, parser and evaluator for that fragment of SQL give the text its meaning.
3. **The reconciler** (`Cluster`, `Reconcile`, `Reconciler`, `Frames`, `ReadyTheorems`,
   `Convergence`, `Ordering`, `CatalogCalls`, `SecretTheorems`, `Draws`, `Credentials`,
   `Success`, `AnsweredRuns`, `Enforcement`, `Runs`, `ReconcilerGaps`). Namespaces, secrets,
   workloads, the bucket job, catalog effects and status conditions change by reconcile passes.
   Every API call of a pass may be answered, lost, or fail after its effect has landed.
   `Reconciler.DataPlatformReconciler` is the operator as an object whose methods update the
   cluster and the status with early returns; each method is tied to a function of `Reconcile`
   and promises what the theorems prove of it, over single passes and over runs in which
   anything else may happen between passes.
4. **OpenFGA provisioning and rendering** (`AuthzModel`, `AuthzStore`, `AuthzHistory`,
   `Provisioning`, `Rendering`). Merging of types into a canonical form, the paged store search,
   retry-tolerant provisioning over an append-only server, alone and as part of reconcile
   passes, and deterministic rendering with hash framing.

`Strings` and `Wrappers` hold order, sorting, splitting and option types.

Where a property does not hold of the code, the code is kept and the exact condition is proved:

- For the listing operations the batch and `allow` differ exactly in three gaps
  (`BatchTheorems.BatchExact`), for SelectFromColumns exactly in two (`BatchTheorems.SelectExact`):
  the batch asks `read_data` on views where `allow` asks `select`, which a comment treats as one
  right, and `allow_admin_system_schemas` does not look at the catalog while the batch fallback
  only tries default access. `BatchGaps` has inputs for each.
- A request to LakeKeeper that goes unanswered is skipped, so that later answers move to earlier
  resources. Results stay aligned exactly when no request is lost (`LostRequests.AlignedIff`), and
  losses only hide exactly when no answered request follows a lost one
  (`LostRequests.FailClosedIff`, for batches `LostRequests.LossesFailClosed`). Otherwise the batch
  fails open (input: `LostRequests.LossSwapsTables`).
- While OpenFGA's database is down a pass takes access control out of Trino's configuration, also
  on a running platform (`Enforcement.EnforcedIff`; input: `ReconcilerGaps.AccessControlDropped`).
  A platform that is Ready has it (`Enforcement.ReadyEnforces`).
- With LakeKeeper disabled and auth enabled a pass does not touch AuthReady, so Ready and the
  seven conditions can disagree (`ReadyTheorems.ReadySummarisesExact`; input:
  `ReconcilerGaps.AuthReadyUntouched`).
- Ready, whose message says that all enabled components are ready, does not look at OPA or at
  Trino's workers (`ReconcilerGaps.ReadyCoversExact`; input: `ReconcilerGaps.ReadyOverlooks`).
- OPA's client secret has the same name as Keycloak's. In one namespace the first successful
  pass destroys Keycloak's, and no later pass succeeds; the same happens to a user's own secret of
  that name (`SecretTheorems.OidcKeptIff`, `AnsweredRuns.ClientsReadableIff`,
  `AnsweredRuns.AnsweredRunsAreErrorFree`, `Runs.ClashSucceedsOnce`; inputs:
  `ReconcilerGaps.ClashFails`, `ReconcilerGaps.ClashDestroys` and `ReconcilerGaps.UserSecretLost`).
- The hash over Trino's catalogs follows Go's map order when there are two or more extra
  catalogs (`Rendering.HashOrderExact`).
- Two specs' authorization models match exactly when the specs need the same pairs, unless they
  differ by the relation of the built-in type "group" (`AuthzModel.ModelsMatchIff`).
- A dot in a catalog or table name gives default object ids a second reading
  (`AccessSpec.DottedNamesCollide`); without such dots they are unique.

Premises that appear as preconditions: LakeKeeper answers each request in full
(`AnsweredInFull`, except in `LostRequests`, where a request is answered in full or not at all);
column names contain no double quote, which the CRD's pattern guarantees; ids that the OpenFGA
server hands out are fresh and it has no other writers; reads see earlier writes.

## Model

| member | source | states |
|---|---|---|
| `TrinoNames.NestedSchemaSplit` | internal/controller/embed/opapolicies/trino-check.rego:22-36 | For every nested schema, parent plus "." plus child restores it, and the parent's namespace is the schema's namespace minus its last part |
| `TrinoNames.NamespaceInjective` | internal/controller/embed/opapolicies/trino-check.rego:22-25 | Two schema names with the same namespace are the same name |
| `TrinoNames.NestedIffDotted` | internal/controller/embed/opapolicies/trino-check.rego:22-36 | A schema is nested exactly when its name has a dot |
| `TrinoNames.MetadataSplit` | internal/controller/embed/opapolicies/trino-check.rego:144-163 | On every table name at most one metadata suffix matches, so the split rule never conflicts; a split exists exactly when `is_metadata_table` holds, and base plus suffix restores the name |
| `TrinoNames.SplitMetadataTableName` | internal/controller/embed/opapolicies/trino-check.rego:154-163 | On a metadata table the result is one of the bases that a suffix leaves |
| `Lakekeeper.Limit` | internal/controller/embed/opapolicies/lakekeeper-check.rego:177-181 | The effective batch size is the setting when that is positive, 1000 when there is none, and at least one for every integer, zero and negative included |
| `Lakekeeper.ChunksPartition` | internal/controller/embed/opapolicies/lakekeeper-check.rego:183-193 | For every non-empty list and every batch size the slices are non-empty, within the limit, full up to the last one, and concatenate to the list |
| `Lakekeeper.BatchAligned` | internal/controller/embed/opapolicies/lakekeeper-check.rego:177-235 | When every request is answered in full, result i answers check i, for every list and every batch size |
| `Lakekeeper.RequireMeansOracle` | internal/controller/embed/opapolicies/lakekeeper-check.rego:12-29 | A `require_*` call succeeds exactly when the LakeKeeper is configured and the oracle allows the check |
| `Lakekeeper.RequireNeedsOneTrue` | internal/controller/embed/opapolicies/lakekeeper-check.rego:12-29 | Whatever an instance answers, a `require_*` call succeeds only on exactly one result, which is allowed |
| `Lakekeeper.UnansweredChunkShifts` | internal/controller/embed/opapolicies/lakekeeper-check.rego:186-194 | One instance of lost alignment: a skipped first chunk puts the second check's answer in the first one's place; `LostRequests.AlignedIff` says exactly when that happens |
| `LostRequests.AlignedIff` | internal/controller/embed/opapolicies/lakekeeper-check.rego:177-194 | For every list, batch size and choice of requests that go unanswered, the others being answered in full: result i answers check i throughout if and only if no request of the list went unanswered |
| `LostRequests.OrderlySound` | internal/controller/embed/opapolicies/lakekeeper-check.rego:177-194 | When no answered request follows an unanswered one the results are a prefix of the answers: what is true at position j is check j |
| `LostRequests.CollectedBy` | internal/controller/embed/opapolicies/lakekeeper-check.rego:183-194 | What the policies collect is determined by which chunks are lost and what is decided, which are the two things that `FailClosedIff` speaks of |
| `LostRequests.FailClosedIff` | internal/controller/embed/opapolicies/lakekeeper-check.rego:183-194 | For checks without repetition: losses only ever hide, whatever LakeKeeper decides, if and only if no answered chunk follows a lost one |
| `LostRequests.LossesFailClosed` | internal/controller/embed/opapolicies/trino-check_batch.rego:42-290 | When each list of a batch loses requests only at its end, every ordinary resource that the batch shows LakeKeeper itself allows, by the resource's own check or, for listing, by a broad one |
| `LostRequests.ColumnLossesFailClosed` | internal/controller/embed/opapolicies/trino-check_batch.rego:295-319 | The same for FilterColumns on one table |
| `LostRequests.LosingLoses` | internal/controller/embed/opapolicies/lakekeeper-check.rego:186-194 | For any two tables there is a LakeKeeper that loses the requests about one and allows only the other, so that the next row speaks of something |
| `LostRequests.LossSwapsTables` | internal/controller/embed/opapolicies/trino-check_batch.rego:154-196 | Against such a LakeKeeper with batch size two, every listing of two ordinary tables shows the one that LakeKeeper denies and hides the one that it allows |
| `TrinoBatch.CatalogIndicesSlow` | internal/controller/embed/opapolicies/trino-check_batch.rego:141-165 | The indices listed for a catalog are exactly the slow-path resources of that catalog |
| `BatchTheorems.AnswerAt` | internal/controller/embed/opapolicies/lakekeeper-check.rego:177-235 | Result j of a batch is allowed exactly when a `require_*` call on check j alone succeeds |
| `BatchTheorems.WarehouseBroadExact` | internal/controller/embed/opapolicies/trino-check_batch.rego:42-55 | The warehouse fast path is taken exactly when the one-at-a-time check for `list_everything` on the warehouse succeeds |
| `BatchTheorems.NamespaceBroadExact` | internal/controller/embed/opapolicies/trino-check_batch.rego:61-105 | After sorting, checking and mapping back, a schema is broad exactly when the batch mentions it, the warehouse is not broad and its own check succeeds |
| `BatchTheorems.BroadSparesChecks` | internal/controller/embed/opapolicies/trino-check_batch.rego:107-165 | A resource that a broad right covers is not in the list of resources that are checked one by one |
| `BatchTheorems.PairAt` | internal/controller/embed/opapolicies/trino-check_batch.rego:166-178 | The two consecutive checks of the k-th resource are its table check and its view check |
| `BatchTheorems.PairAllowedExact` | internal/controller/embed/opapolicies/trino-check_batch.rego:180-196 | Mapping even result positions back to indices yields an index exactly when its table check or its view check is allowed |
| `BatchTheorems.TableBatchExact` | internal/controller/embed/opapolicies/trino-check_batch.rego:154-196 | An index is in a catalog's table batch exactly when it is a slow-path table of that catalog allowed as table or as view |
| `BatchTheorems.SchemaBatchExact` | internal/controller/embed/opapolicies/trino-check_batch.rego:200-237 | The same for namespaces with their single check |
| `BatchTheorems.OrdinaryExact` | internal/controller/embed/opapolicies/trino-check_batch.rego:244-290 | For an ordinary resource of a managed catalog the batch answers yes exactly on a broad right (listing operations only) or on the resource's own right |
| `BatchTheorems.BlanketExact` | internal/controller/embed/opapolicies/trino-main.rego:86-125 | Evaluating one representative per unmanaged catalog decides the same as evaluating each resource |
| `BatchTheorems.FallbackExact` | internal/controller/embed/opapolicies/trino-main.rego:109-160 | Resources that the LakeKeeper batch does not decide are answered exactly by the per-resource fallbacks |
| `BatchTheorems.IndexExact` | internal/controller/embed/opapolicies/trino-main.rego:37-160 | Per index, batch and `allow` differ exactly in the named gaps |
| `BatchTheorems.BatchExact` | internal/controller/embed/opapolicies/trino-check_batch.rego:42-290 | For FilterTables, FilterSchemas and multi-resource FilterColumns, on every list and every oracle, `batch` equals the set of indices allowed one at a time if and only if no resource has a broad right without its own right, a managed system catalog, or an admin on an unmanaged system schema |
| `BatchTheorems.BatchPreservesAllow` | internal/controller/embed/opapolicies/trino-main.rego:16-160 | Under the deployed premises (monotone `list_everything`, "system" not managed, unmanaged catalogs allowed or no admin) `batch` equals one-at-a-time `allow` |
| `BatchTheorems.AllowIgnoresColumn` | internal/controller/embed/opapolicies/trino-allow_table.rego:92-99 | The decision on a table is the same for every column of it |
| `BatchTheorems.SingleTableColumnsExact` | internal/controller/embed/opapolicies/trino-check_batch.rego:295-319 | FilterColumns on one table with n columns answers all of 0..n-1 or nothing, and all exactly when the table is allowed, over managed, system-schema, metadata-table and unmanaged routes |
| `BatchTheorems.SelectNeedsReadData` | internal/controller/embed/opapolicies/trino-check_batch.rego:16-23 | SelectFromColumns answers an ordinary managed table only through its own `read_data` check, however broad the listing rights are |
| `BatchTheorems.SelectExact` | internal/controller/embed/opapolicies/trino-allow_view.rego:72-78 | For SelectFromColumns, for every configuration and list, the batch equals one-at-a-time `allow` if and only if no resource without the table's `read_data` has `read_data` as a view differing from `select` or default access, and no admin gap applies |
| `BatchTheorems.OtherOperationsOneAtATime` | internal/controller/embed/opapolicies/trino-main.rego:165-188 | Operations without a dedicated batch are answered index by index with `allow` |
| `AllowTheorems.BaseExact` | internal/controller/embed/opapolicies/trino-check.rego:144-163 | A table name is a metadata table's exactly when it is a base, a dollar sign and one of eleven kinds, and the base that the policy splits off is that one |
| `AllowTheorems.AllowExact` | internal/controller/embed/opapolicies/trino-main.rego:16-80 | For every operation, resource, user, configuration and oracle, `allow` is what a reference by operation says in terms of LakeKeeper's answers to spelled-out checks: default and admin access, catalogs, schemas, system schemas, tables, views, metadata tables and unmanaged catalogs |
| `AllowTheorems.MetadataRead` | internal/controller/embed/opapolicies/trino-allow_table.rego:110-116 | Reading a metadata table of a managed catalog takes the right to see its base table, or to select from a view of the very name, and nothing else |
| `AllowTheorems.FallbackEntitled` | internal/controller/embed/opapolicies/trino-main.rego:109-160 | For every resource that LakeKeeper's batch does not decide the batch answers what the reference says, unless it is in the admin gap |
| `AllowTheorems.OrdinaryTableEntitled` | internal/controller/embed/opapolicies/trino-check_batch.rego:154-290 | For every ordinary table the batch answers by LakeKeeper's right on the table or view, `read_data` for reading and metadata for listing, or by a right to list everything where the operation lists |
| `AllowTheorems.OrdinarySchemaEntitled` | internal/controller/embed/opapolicies/trino-check_batch.rego:200-290 | For every ordinary schema by the right to see it or to list everything |
| `BatchGaps.BroadGapHappens` | internal/controller/embed/opapolicies/trino-check_batch.rego:42-55 | For every ordinary schema there is a LakeKeeper that allows listing the warehouse and nothing else, and there batch and `allow` differ |
| `BatchGaps.SystemGapHappens` | internal/controller/embed/opapolicies/trino-allow_default_access.rego:92-143 | With a managed catalog called "system" and a LakeKeeper that allows nothing, batch and `allow` differ on a schema of default access |
| `BatchGaps.SelectGapHappens` | internal/controller/embed/opapolicies/trino-allow_view.rego:72-78 | For every ordinary view there is a LakeKeeper that allows `select` on views only, and there batch and `allow` differ |
| `BatchGaps.AdminGapHappens` | internal/controller/embed/opapolicies/trino-allow_schema.rego:147-157 | A concrete request on which an admin is allowed one at a time and not in the batch |
| `AccessSpec.RowFiltersJson` | internal/controller/opa.go:134-153 | One entry per row filter, in order; field by field it says what the filter says, with "lakekeeper" and "viewer" where catalog and relation are left open and a number exactly when that is set |
| `AccessSpec.ColumnAccessJson` | internal/controller/opa.go:157-176 | The same for column restrictions, with mask NULL and the column's full name as object where those are left open |
| `AccessSpec.OpaAccessEnv` | internal/controller/opa.go:106-130 | The environment handed to OPA carries one such entry per filter and restriction and the store id, and nothing without policies or with authorization switched off |
| `AccessSpec.ObjectIdInjective` | api/v1alpha1/defaults.go:279-284 | The default object id determines catalog, schema, table and column, for nested schemas with any number of dots, when catalog, table and column have none |
| `AccessSpec.DottedNamesCollide` | api/v1alpha1/defaults.go:279-284 | With a dot in a table or catalog name every id has a second reading, which names another table or another catalog |
| `AccessSpec.ColumnPatternPlain` | api/v1alpha1/dataplatform_types.go:289-293 | The column pattern excludes dots and double quotes |
| `RowFilterTheorems.QuotedEscape` | internal/controller/embed/rowfilters/trino-row_filters.rego:60-62 | Reading an escaped value back stops at its closing quote with the original value, whatever follows |
| `RowFilterTheorems.InClauseRoundTrip` | internal/controller/embed/rowfilters/trino-row_filters.rego:39-69 | For every quote-free column and every non-empty list of literals, lexing and parsing the emitted text gives back that column and those values (string literals as in section 5.3 of ISO/IEC 9075-2) |
| `RowFilterTheorems.FalseRoundTrip` | internal/controller/embed/rowfilters/trino-row_filters.rego:48-50 | The deny expression parses as the condition that no row satisfies |
| `RowFilterTheorems.UsableMeaning` | internal/controller/embed/rowfilters/trino-row_filters.rego:52-67 | A cell equals a usable literal exactly when it equals a listed value that is well formed for the filter's kind |
| `RowFilterTheorems.NumberExact` | internal/controller/embed/rowfilters/trino-row_filters.rego:64-67 | The pattern for numbers admits exactly the numerals made of an optional minus, digits and an optional fraction, and the literal's value is the numeral's |
| `RowFilterTheorems.PermittedExact` | internal/controller/embed/rowfilters/trino-row_filters.rego:74-108 | A value is permitted exactly when the store answered and listed `type:value` |
| `RowFilterTheorems.ExpressionMeaning` | internal/controller/embed/rowfilters/trino-row_filters.rego:39-50 | Each emitted expression parses, and a row satisfies it exactly when its column equals a granted value |
| `RowFilterTheorems.RowFiltersExact` | internal/controller/embed/rowfilters/trino-row_filters.rego:19-84 | A non-admin sees a row exactly when every filter on the table grants it |
| `RowFilterTheorems.FailuresHideEveryRow` | internal/controller/embed/rowfilters/trino-row_filters.rego:74-108 | With an empty store id or a failed call no row of a filtered table is visible |
| `RowFilterTheorems.UnfilteredRows` | internal/controller/embed/rowfilters/trino-row_filters.rego:19-37 | Admins, and users of unfiltered tables, see every row |
| `ColumnMasks.MasksExact` | internal/controller/embed/rowfilters/trino-column_masks.rego:18-44 | In terms of the spec's own fields: column index i gets mask m exactly when the user is not an admin and some restriction on exactly that column, whose mask or NULL is m, lacks its own grant |
| `ColumnMasks.FailuresMaskEveryColumn` | internal/controller/embed/rowfilters/trino-column_masks.rego:18-44 | With an empty store id, or when the entry's own call fails, the restricted column gets the entry's mask, whatever other calls answer |
| `ColumnMasks.MasksAntitone` | internal/controller/embed/rowfilters/trino-column_masks.rego:40-44 | Enlarging the grant list never adds a mask |
| `ColumnMasks.GrantRevealsOneColumn` | api/v1alpha1/defaults.go:279-284 | Whatever is granted already, an entry that one more grant on a default object id lifts is an entry for that very column |
| `ColumnMasks.SpecRowsExact` | internal/controller/opa.go:106-153 | From spec to rows, in terms of the spec's own fields: a non-admin sees a row exactly when every filter on exactly that table grants the row's value, by the filter's type and relation, as text or as a number |
| `AuthzModel.Add` | internal/controller/openfga.go:171-175 | Adds one (type, relation) pair to the collected ones and nothing else |
| `AuthzModel.CollectRelations` | internal/controller/openfga.go:170-181 | The two loops collect exactly the spec's pairs |
| `AuthzModel.ListTypes` | internal/controller/openfga.go:182-186 | The listing loop turns collected pairs into their canonical form |
| `AuthzModel.AccessAuthzTypes` | internal/controller/openfga.go:169-187 | The result is the canonical form of the spec's pairs |
| `AuthzModel.CanonicalPairs` | internal/controller/openfga.go:169-187 | The canonical form holds exactly the pairs that it was made from |
| `AuthzModel.CanonicalSorted` | internal/controller/openfga.go:182-186 | It is strictly sorted by name and, within each type, by relation, and no type is empty |
| `AuthzModel.TypesIgnoreOrder` | internal/controller/openfga.go:169-187 | Permuting or repeating spec entries changes nothing |
| `AuthzModel.QueriedPairs` | internal/controller/opa.go:134-176 | The pairs of the model are exactly those that the JSON sent to OPA makes it query |
| `AuthzModel.AuthzTypeJson` | internal/controller/authzstore.go:243-261 | The type's definition has exactly the listed relations, each assignable to exactly the given references |
| `AuthzModel.AuthzModelJson` | internal/controller/authzstore.go:222-241 | Users, groups whose members are users, then one definition per requested type in order, with each relation assignable to a user and to the members of a group |
| `AuthzModel.ModelDocument` | internal/controller/authzstore.go:222-261 | The model that is compared and written is that document, definition by definition |
| `AuthzModel.GrantableToUsersAndGroups` | internal/controller/authzstore.go:223-261 | In that document the last definition of every requested type makes each of its relations assignable to exactly users and group members |
| `AuthzModel.AuthzModelShape` | internal/controller/authzstore.go:273-283 | The loop computes each type's sorted relations |
| `AuthzModel.ShapeOfModel` | internal/controller/authzstore.go:222-283 | The shape has the listed types with their sorted relations, and the built-in types that are not listed, and nothing else |
| `AuthzModel.ShapeExact` | internal/controller/authzstore.go:273-283 | The shape of a canonical model tells exactly which pairs the model defines |
| `AuthzModel.ModelsMatchIff` | internal/controller/authzstore.go:266-271 | For any two specs, the models match if and only if the specs need the same pairs or differ by the built-in group type's own relation; so exactly as they should when no requested type is called "group" |
| `AuthzModel.ReservedTypeHidesPair` | internal/controller/authzstore.go:222-241 | For every spec without a type called "group", adding that type's built-in relation is a need that the comparison does not notice |
| `AuthzStore.FindAuthzStore` | internal/controller/authzstore.go:118-159 | The paging loop ends on every finite chain of tokens with the result of searching along it |
| `AuthzStore.SearchIsWholeSearch` | internal/controller/authzstore.go:118-159 | The paged search is the search for the first live store of that name over all pages put together |
| `AuthzStore.SearchAgrees` | internal/controller/authzstore.go:118-159 | With failing pages the search reports an error or the same id, never a wrong one |
| `AuthzStore.FirstLiveMeans` | internal/controller/authzstore.go:141-147 | The store that is found is the first of that name that is not deleted |
| `AuthzStore.PagesBounded` | internal/controller/authzstore.go:118-140 | A page of the listing holds at most one hundred stores |
| `AuthzStore.ServerListing` | internal/controller/authzstore.go:118-159 | On the server's own paging the search finds the first live store of the name, or nothing when there is none |
| `AuthzStore.AuthzServer.CreateAuthzStore` | internal/controller/authzstore.go:161-187 | Appends one live store unless the request is lost, and returns its id only when the answer arrives |
| `AuthzStore.AuthzServer.WriteModel` | internal/controller/authzstore.go:104-115 | Appends one model unless the request is lost |
| `AuthzStore.AuthzServer.EnsureAuthzStore` | internal/controller/authzstore.go:80-116 | The method does what the specification function says, for every combination of failures, and every model that it appends is the document of the requested types |
| `AuthzStore.AppendsDocuments` | internal/controller/authzstore.go:95-116 | Every model that an attempt appends is the document of the requested types |
| `AuthzStore.TargetStable` | internal/controller/authzstore.go:80-116 | Once a live store of the name exists no attempt changes which one is found |
| `AuthzStore.SuccessMatches` | internal/controller/authzstore.go:95-116 | After a success the returned id is the first live store's and its newest model has the requested shape |
| `AuthzStore.SuccessNeedsAnswers` | internal/controller/authzstore.go:80-116 | A success has had an answer to the listing, to the creation if there was no live store, to the look at the newest model, and to the write if that model did not match |
| `AuthzStore.StaysWellFormed` | internal/controller/authzstore.go:80-116 | Over any sequence of attempts ids stay non-empty and at most one store and one model are added |
| `AuthzStore.IdsStayDistinct` | internal/controller/authzstore.go:80-116 | No sequence of attempts makes two stores share an id |
| `AuthzStore.ProvisionedOnce` | internal/controller/authzstore.go:80-187 | Over any sequence of attempts, each failing before or after its effect lands, at most one store is created and one model appended, every success returns the same id and leaves the requested shape |
| `AuthzStore.TargetKept` | internal/controller/authzstore.go:80-116 | Once a live store of the name exists, no later attempt adds or removes a store |
| `Rendering.RenderProperties` | internal/controller/trino.go:184-198 | The text is the same for every iteration order of the map |
| `Rendering.RenderRoundTrip` | internal/controller/trino.go:184-198 | A line parser recovers the map, when keys have no "=" or newline and values no newline |
| `Rendering.HashInput` | internal/controller/apply.go:177-184 | The write loop feeds the hash every part followed by a NUL |
| `Rendering.FrameInjective` | internal/controller/apply.go:177-184 | Two lists of NUL-free parts that feed the same bytes are the same list |
| `Rendering.AddExtras` | internal/controller/trino.go:212-222 | One iteration order of the extra catalogs: the files they add and the parts they append |
| `Rendering.TrinoCatalogData` | internal/controller/trino.go:200-223 | The files are the own catalog's and every non-reserved extra one's; the hashed parts follow the iteration order |
| `Rendering.CatalogFilesUnique` | internal/controller/trino.go:200-223 | The files do not depend on the iteration order |
| `Rendering.HashOrderExact` | internal/controller/trino.go:214-222 | The hashed parts are independent of the iteration order if and only if at most one extra catalog is not the reserved one |
| `Cluster.CheckJobSucceeded` | internal/controller/minio.go:396-403 | True exactly when a pod succeeded or a Complete condition is True |
| `Cluster.CheckJobFailed` | internal/controller/minio.go:405-412 | True exactly when a Failed condition is True |
| `Cluster.CheckWritableConfig` | internal/controller/minio.go:384-394 | True exactly when the first container has the writable home |
| `Reconciler.DataPlatformReconciler.EnsureOidcSecretKeys` | internal/controller/keycloak.go:261-282 | Adds the two OPA entries that are missing, touches nothing else, and writes only when something was missing |
| `Reconciler.DataPlatformReconciler.PerformAll` | internal/controller/keycloak.go:44-75 | The calls of a component in order, up to the first error, with the values read |
| `Reconciler.DataPlatformReconciler.ReconcilePostgres` | internal/controller/postgres.go:43-128 | On success PostgresReady says whether the database was up (an external one counts as up), the StatefulSet exists, no other condition and no job changed; on error PostgresReady is False and no other condition changes; its calls keep the log in order and no secret that the spec does not render anew loses an entry, with or without error |
| `Reconciler.DataPlatformReconciler.EnsureMinioBucket` | internal/controller/minio.go:295-382 | With the job predicates computed by loops, the bucket step of the pass function: create, wait, delete a failed job, or done |
| `Reconciler.DataPlatformReconciler.ReconcileObjectStore` | internal/controller/minio.go:49-176 | On success MinioReady and the result say whether MinIO was up and its bucket made, and the store handed on carries the keys of the secret that owns them; on error MinioReady is False and no other condition changes; its calls keep the log in order and no secret that the spec does not render anew loses an entry, with or without error |
| `Reconciler.DataPlatformReconciler.ReconcileAuth` | internal/controller/oidc.go:59-136 | On success AuthReady and the result say whether the identity provider was up, and the clients handed on are those of the secret that owns them; on error AuthReady is False and no other condition changes; its calls keep the log in order and no secret that the spec does not render anew loses an entry, with or without error |
| `Reconciler.DataPlatformReconciler.ReconcileAuthz` | internal/controller/openfga.go:51-134 | On success OpenFGAReady and the result say whether OpenFGA and its database were up, and OpenFGA's Deployment exists if the database was; on error OpenFGAReady is False and no other condition changes; its calls keep the log in order and no secret that the spec does not render anew loses an entry, with or without error |
| `Reconciler.DataPlatformReconciler.RunLakekeeper` | internal/controller/dataplatform_controller.go:130-139 | On success LakekeeperReady says that identity provider and OpenFGA were ready and LakeKeeper up; on error LakekeeperReady is False and no other condition changes; when the readiness handed to it was seen in the log, its calls keep the log in order and no secret that the spec does not render anew loses an entry, with or without error |
| `Reconciler.DataPlatformReconciler.ReconcileWarehouse` | internal/controller/warehouse.go:29-79 | Touches no cluster object; on success WarehouseReady is True exactly with a catalog client, and then token, bootstrap, grants and warehouse, as far as they apply, are all in the log, in order; on error it is False and a front part of them is; no other condition changes |
| `Reconciler.DataPlatformReconciler.ReconcileLakekeeperStack` | internal/controller/dataplatform_controller.go:94-154 | On success with LakeKeeper each condition says whether its components were up at the start, it is progressing unless all were and a catalog client exists, and store and clients handed on are those of their owners' secrets; its calls keep the log in order and no secret that the spec does not render anew loses an entry, with or without error |
| `Reconciler.DataPlatformReconciler.ReconcileOpa` | internal/controller/opa.go:35-67 | On success OPA's secret holds the client that it was given, and conditions, jobs and readiness are untouched; the log stays in order |
| `Reconciler.DataPlatformReconciler.ReconcileTrinoStack` | internal/controller/dataplatform_controller.go:156-173 | On success TrinoReady and the result say whether the coordinator was up, no other condition changes, and the catalog file carries what the store and the client allow; given the clients of the LakeKeeper stack, its calls keep the log in order and no secret that the spec does not render anew loses an entry, with or without error |
| `Reconciler.DataPlatformReconciler.ReconcileOnce` | internal/controller/dataplatform_controller.go:68-92 | One pass: without error Ready says exactly whether everything that it waits for was up and, with LakeKeeper, whether all seven conditions are True; with an error Ready is False; calls come in order, and the catalog is filled exactly when the stack was up and there is a catalog client; secrets that are not rendered anew keep their entries and new ones are complete, every new entry its conventional name or its own random draw |
| `Frames.ActsFrame` | internal/controller/apply.go:208-264 | No list of calls touches conditions, jobs or the store id, removes a workload or changes readiness; every applied workload exists afterwards |
| `Frames.ReadyAfter` | internal/controller/postgres.go:54-73 | Asking for a workload after applying it answers with the readiness that it had when the pass began |
| `ReadyTheorems.StackConditions` | internal/controller/dataplatform_controller.go:94-154 | After a stack without error each condition says whether its components were up when the pass began |
| `ReadyTheorems.PassConditions` | internal/controller/dataplatform_controller.go:68-173 | After every pass without error Ready is True exactly when everything that it waits for was up at the start: Trino's coordinator and, with LakeKeeper, the stack and a catalog client; OPA and Trino's workers are not among it |
| `ReadyTheorems.DisabledConditions` | internal/controller/dataplatform_controller.go:95-105 | Without LakeKeeper five conditions become True, and AuthReady only when auth is disabled too |
| `ReconcilerGaps.ReadyCoversExact` | internal/controller/dataplatform_controller.go:156-173 | After a pass without error Ready says that every workload of the spec was up, if and only if it is not the case that all it waits for was up while OPA or the wanted workers were down |
| `ReconcilerGaps.ReadyOverlooks` | internal/controller/dataplatform_controller.go:164-172 | For every embedded spec there is a cluster in which an answered pass reports Ready with OPA and every worker down |
| `ReconcilerGaps.AuthReadyUntouched` | internal/controller/dataplatform_controller.go:95-105 | From the empty cluster, with LakeKeeper and Trino disabled and auth enabled, a pass reports Ready while AuthReady is not True |
| `ReadyTheorems.ReadySummarises` | internal/controller/dataplatform_controller.go:68-173 | With LakeKeeper enabled, after every pass without error, Ready is True exactly when the seven component conditions are, whatever stale conditions it began with |
| `ReadyTheorems.ReadySummarisesExact` | internal/controller/dataplatform_controller.go:95-105 | For every spec that agreement fails exactly when LakeKeeper is disabled, auth is enabled, AuthReady was not True before and Trino is up |
| `ReadyTheorems.ErrorsAreNotReady` | internal/controller/dataplatform_controller.go:72-82 | After every pass that errors Ready is False |
| `Frames.PostgresFails` | internal/controller/postgres.go:43-128 | When the database step errs PostgresReady is False and no other condition changes |
| `Frames.ObjectStoreFails` | internal/controller/minio.go:49-176 | The same for the object store and MinioReady |
| `Frames.AuthFails` | internal/controller/oidc.go:59-136 | The same for the identity provider and AuthReady |
| `Frames.AuthzFails` | internal/controller/openfga.go:51-134 | The same for OpenFGA and OpenFGAReady |
| `Frames.RunLakekeeperFails` | internal/controller/lakekeeper.go:36-73 | The same for LakeKeeper and LakekeeperReady |
| `Frames.WarehouseFails` | internal/controller/warehouse.go:29-79 | The same for the warehouse and WarehouseReady |
| `Frames.TrinoStackFails` | internal/controller/dataplatform_controller.go:156-173 | When Trino's own step errs TrinoReady is False and no other condition changes; an error before it changes none |
| `Frames.PassNeeds` | internal/controller/oidc.go:75-100 | A pass over a spec that does not name host, issuer or credentials of an external service, or that asks for an external OpenFGA, errs whatever its calls do |
| `CatalogCalls.WarehouseAdds` | internal/controller/warehouse.go:48-78 | The warehouse step adds to the log a front part of token (with auth), bootstrap, grants (with the operator's own identity provider) and warehouse, and all of them when it succeeds with a catalog client |
| `CatalogCalls.PassFills` | internal/controller/dataplatform_controller.go:94-154 | Every pass, failing or not, makes a front part of these calls, each at most once; a pass without error makes them all when it found the stack up and has a catalog client, and none otherwise |
| `CatalogCalls.ReadyMeansFilled` | internal/controller/warehouse.go:72-78 | Ready with LakeKeeper means that this pass bootstrapped the catalog and ensured the warehouse, got a token exactly with auth and ensured grants exactly with an embedded identity provider |
| `ReadyTheorems.ReadyMeansUp` | internal/controller/dataplatform_controller.go:68-92 | Ready is never reported by a pass that errs or that found down something that Ready waits for |
| `Frames.MinioResult` | internal/controller/minio.go:108-176 | MinIO is ready exactly when its StatefulSet was up and the bucket job had succeeded |
| `Frames.BucketResult` | internal/controller/minio.go:295-382 | The bucket step makes a missing job, with a home that its client can write to, marks a failed or unwritable one for deletion, leaves any other job as it is, and says whether the job has finished |
| `Frames.OpenFgaResult` | internal/controller/openfga.go:64-134 | OpenFGA is ready exactly when its database and its Deployment were up, and its Deployment exists once the database was up |
| `Frames.TrinoResult` | internal/controller/trino.go:40-92 | TrinoReady says whether the coordinator was up, coordinator and Service exist, workers exist exactly when some are wanted, and no other condition and no job changes |
| `Convergence.PassLeaves` | internal/controller/dataplatform_controller.go:94-173 | What a pass without error leaves behind: namespaces, Services, configuration objects and workloads of every component that it applies, OPA included, workers exactly when wanted, and the bucket job started, given up or left alone |
| `Convergence.StageFalls` | internal/controller/dataplatform_controller.go:112-153 | The stage measure over what Ready waits for falls on every pass that has not found it all up, and stays at zero |
| `Convergence.StageBound` | internal/controller/dataplatform_controller.go:94-173 | From any first cluster the stage before pass k is at most 3 - k, then zero |
| `Convergence.ReadyByFourthPass` | internal/controller/dataplatform_controller.go:68-173 | From any cluster, when workloads become ready and the bucket job completes between passes without error, the fourth and every later pass reports Ready, exactly when LakeKeeper is disabled or a catalog client is configured |
| `Success.PassAnswered` | internal/controller/dataplatform_controller.go:94-173 | A pass whose calls are all answered has no error when the spec is complete and every secret that it reads is complete, or missing where the operator makes it; the identity provider's clients are not read from the secret that the bucket step of the same pass writes |
| `AnsweredRuns.ClientsReadableIff` | internal/controller/opa.go:55-67 | After a pass without error over readable clients the identity provider's clients, Keycloak's or those of the user's own secret, can be read again if and only if OPA's secret does not overwrite theirs without an entry that is read; the secret is taken not to be one of those that the bucket step and Trino render |
| `AnsweredRuns.AnsweredRunsAreErrorFree` | internal/controller/dataplatform_controller.go:68-173 | A run of two or more answered passes over a configured platform has no error if and only if there is no such clash; database and object store credentials are taken not to be read from a secret that the operator renders |
| `AnsweredRuns.ReadyFromEmpty` | internal/controller/dataplatform_controller.go:68-173 | From the empty cluster every embedded spec without a clash is Ready by the fourth answered pass, with no premise on errors |
| `Enforcement.EnforcedIff` | internal/controller/trino.go:53-67 | After every pass without error Trino's configuration names OPA if and only if the spec deploys OPA and OpenFGA's database was up when the pass began, and then it gives the addresses for row filters and column masks exactly when the spec has them |
| `Enforcement.ReadyEnforces` | internal/controller/openfga.go:86-111 | Whenever a pass with authorization reports Ready, Trino's configuration names OPA |
| `Enforcement.DownUnenforced` | internal/controller/openfga.go:91-94 | With OpenFGA's database down an answered pass succeeds and leaves Trino's configuration without OPA, whatever it said before |
| `Success.OldConfigGone` | internal/controller/trino.go:265-266 | After an answered pass the ConfigMap that once held Trino's configuration is gone |
| `Provisioning.HandsOnStore` | internal/controller/openfga.go:104-130 | Until OpenFGA is up no store id is handed on, so that row filters and column masks hide everything; from then on the provisioned one is, exactly when policies need it |
| `ReconcilerGaps.AccessControlDropped` | internal/controller/trino.go:260-282 | For every embedded spec with authorization there is a cluster with Trino up and asking OPA in which an answered pass succeeds and takes OPA out of its configuration |
| `Ordering.OpenFgaSteps` | internal/controller/openfga.go:86-134 | OpenFGA's Deployment is applied only after its own Postgres was seen ready in the same pass, and the access store is requested only after OpenFGA was |
| `Ordering.WarehouseSteps` | internal/controller/warehouse.go:48-75 | The token, then bootstrap, then grants, then warehouse creation, each only after the one before; `CatalogCalls.WarehouseAdds` says that none is left out |
| `Ordering.PassOrdered` | internal/controller/dataplatform_controller.go:112-153 | In every pass, with or without error: OpenFGA after its database, LakeKeeper after identity provider and OpenFGA, and bootstrap, grants and warehouse in that order and only after database, object store, identity, authorization and LakeKeeper were seen ready |
| `SecretTheorems.ActsKeep` | internal/controller/apply.go:223-252 | No list of calls changes or removes an entry of a secret that it does not rewrite |
| `SecretTheorems.ActsTend` | internal/controller/keycloak.go:209-282 | What a list of calls creates, it creates complete, and every new entry is its conventional name or its own random draw |
| `SecretTheorems.PassKeeps` | internal/controller/keycloak.go:209-282 | No pass, failing or not, changes or removes an entry of a secret that it does not render anew, it adds at most the OPA client, what it creates is complete, and every new entry is its conventional name or its own random draw |
| `SecretTheorems.GeneratedRewritten` | internal/controller/opa.go:55-67 | A generated secret is rendered anew exactly when Keycloak and OpenFGA share a namespace, and then it is the client secret |
| `SecretTheorems.OidcKeptIff` | internal/controller/opa.go:55-67 | Keycloak's client secret survives a pass without error if and only if it is not the case that LakeKeeper and Trino are enabled and OpenFGA is in Keycloak's namespace |
| `SecretTheorems.PassBreaks` | internal/controller/opa.go:55-67 | A pass without error leaves OPA's secret without any entry that is not OPA's own |
| `SecretTheorems.BrokenSticks` | internal/controller/oidc.go:75-136 | A client secret, Keycloak's or the user's own, that lacks an entry read from it is never repaired: every pass over it errors and leaves it so |
| `ReconcilerGaps.ClashingSpec` | internal/controller/opa.go:55-67 | A concrete embedded spec that has the clash, deploys OPA and wants workers, so that the results on such specs speak of something |
| `AnsweredRuns.ClashFailsFrom` | internal/controller/opa.go:55-67 | For every spec with the clash, from every configured cluster the first answered pass succeeds and the next one fails whatever its calls do |
| `ReconcilerGaps.ClashFails` | internal/controller/opa.go:55-67 | For every embedded spec with the clash, that is so from the empty cluster |
| `ReconcilerGaps.UserSecretLost` | internal/controller/oidc.go:89-136 | With an external provider whose secret the user has called `oidc` in OpenFGA's namespace, the first answered pass overwrites it and the next one fails |
| `ReconcilerGaps.ClashDestroys` | internal/controller/opa.go:55-67 | For every such spec and every complete client secret, an answered pass succeeds and destroys it |
| `Draws.DrawsIrrelevant` | internal/controller/openfga.go:189-208 | Once the generated secrets exist, two passes that differ only in their random draws have the same outcome, state and log |
| `Draws.RunningStocks` | internal/controller/trino.go:168-182 | A pass without error that finds identity provider and OpenFGA up leaves every generated secret in place |
| `Runs.SecretsStable` | internal/controller/apply.go:223-252 | Over any run of passes, under changing specs, and of other steps that leave the secret alone, what a secret that no spec renders anew holds at one state it holds at every later one |
| `Runs.EveryPassSafe` | internal/controller/dataplatform_controller.go:68-173 | Each pass of any run keeps the order and reports Ready only without error and when everything that Ready waits for was up |
| `Runs.RunsAgree` | internal/controller/keycloak.go:156-177 | Once the generated secrets exist, two runs that differ only in random draws go through the same states |
| `Runs.ClashSucceedsOnce` | internal/controller/opa.go:55-67 | With the clash at most one pass of a run succeeds, as long as every pass of it follows this one spec and no other step touches the client secret |
| `Credentials.ActsRead` | internal/controller/apply.go:254-264 | Every value that a list of calls reads is the one that the secret holds when the list ends |
| `Credentials.MinioStore` | internal/controller/minio.go:131-150 | The object store handed on carries the access and secret key of the MinIO secret, and so does the bucket client's secret once MinIO is up |
| `Credentials.KeycloakClients` | internal/controller/keycloak.go:91-150 | The configuration handed on carries the UI client id and the operator, Trino and OPA clients, ids and secrets, of the client secret, each in its place |
| `Credentials.RealmPresent` | internal/controller/keycloak.go:284-315 | A success has found the admin's password and the realm's key pair in their secrets |
| `Credentials.DatabaseSecrets` | internal/controller/postgres.go:75-128 | A new database secret names the spec's database, and a success with an external database has found host and both credentials |
| `Credentials.ExternalClients` | internal/controller/oidc.go:89-136 | With an external provider Trino and OPA use their own keys or fall back to the primary client's, for every combination of optional keys |
| `Credentials.OpenFgaKey` | internal/controller/openfga.go:99-111 | The configuration handed on carries the API key of OpenFGA's secret, and its database's password is there |
| `Provisioning.PassNames` | internal/controller/openfga.go:139-165 | A pass without error over a running OpenFGA leaves in the status the id that its provisioning request returned when policies need a store, and no id otherwise |
| `AuthzHistory.HistoryNamesOneStore` | internal/controller/authzstore.go:80-116 | For a server on which only some of the moves make an attempt: at most one store and one model are added and all successes return the same id |
| `Provisioning.RunNamesOneStore` | internal/controller/openfga.go:122-127 | Over any run of passes that take their id from `EnsureAuthzStore`, failing or not and with anything else happening in the cluster, all successful passes name the same store in the status, the first live one of that name on the server, with the wanted newest model |
| `Provisioning.PoliciesNameOneStore` | internal/controller/openfga.go:152-164 | That store is the one that the spec names, and its newest model has the shape that the spec's own policies ask for |
| `Provisioning.ServedSucceeds` | internal/controller/openfga.go:139-165 | Such successes come about: a configured platform with OpenFGA up, every call answered |
| `Credentials.EmbeddedOwners` | internal/controller/opa.go:55-67 | With embedded owners no pass renders a secret that holds credentials, if and only if there is no clash |
| `Credentials.CredentialsAgree` | internal/controller/trino.go:225-298 | After every pass without error, Trino's catalog file carries the store's two keys exactly when LakeKeeper does not vend temporary ones, and Trino's client exactly with an identity provider; coordinator and workers carry the shared secret, and the coordinator Trino's client, exactly with a public address and an identity provider; these files, the bucket client's and OPA's secret carry what the owners' secrets hold in the same cluster, when those secrets are none that the operator renders |

## Left out

- HTTP, port-forwarding, service proxying and token fetching: a request is one call with an outcome, and LakeKeeper and OpenFGA answer as oracles or as an append-only server.
- OPA's response cache and its time-to-live, and the evaluation of Rego itself: rules are functions of their input.
- JSON and environment text: what the operator encodes and OPA decodes is the same list of entries.
- SQL beyond quoted identifiers, string and number literals, `IN` and `false`; Trino's own evaluation, types and collations.
- Operations of the policies that the batch endpoint never receives, such as creating, renaming or dropping; the extension point `allow_managed` is false, as in the repository.
- Reasons, messages, timestamps, endpoints and generations in status, and the status patch at the end of a pass, which is taken to succeed.
- Pod specs, volumes, probes, images, labels, owner references and the contents of Services and ConfigMaps, Keycloak's realm document and the policies among them; a workload is its name and its readiness.
- What the calls to the catalog are given: bootstrap, grants and warehouse are calls that are made or not.
- The contents of rendered configuration beyond which credentials it is built from: `Built` stands for text made of those values. Extra configuration that a user sets to override it is not modelled.
- RSA keys, certificates, UUIDs and SHA-256: random values are arbitrary, and the hash is its input. Failure of the random source is not modelled.
- `apply` is one call; the read before its write and a conflict between the two are not told apart.
- Deleting the bucket job marks it and the environment removes it; deleting the workers takes effect at once.
- AnsweredRuns.AnsweredRunsAreErrorFree: a user's database or object store credentials in a secret that the operator itself renders, and identity provider credentials in the secrets of the bucket step or of Trino, are excluded by the premise `Apart`; whether such an overlap does harm depends on the entries that are read.
- Two API names that differ for Kubernetes are two `SecretName` or `Component` values; one component's Deployment and StatefulSet are not told apart.
- Reconciler.DataPlatformReconciler.PerformAll: runs of API calls that the source writes out one after the other, each with its own error return, are lists of actions that one loop performs.
- A pass sees provisioning as one call with a result; `Provisioning` runs passes together with the server that gives those results, for one spec throughout and one OpenFGA server.
- Watches, requeueing and concurrent passes: passes follow one another, with arbitrary steps in between.
- Generated deepcopy code, CRD YAML, Helm and kustomize files, scripts, `cmd/main.go` and the tests.
