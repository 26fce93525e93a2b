# terraform-provider-valsoperator, modelled in Dafny

This project models the decision logic of the Terraform provider for the vals-operator.
The provider manages two Kubernetes custom resources: `ValsSecret` (`digitalis.io/v1`), a secret assembled from external references, and `DbSecret` (`digitalis.io/v1beta1`), database credentials issued by Vault.

The model covers three parts of the provider.

- **Connection configuration** (`provider.dfy`).
  - `initializeConfiguration` picks the kubeconfig paths by a fixed precedence: `config_path`, then `config_paths`, then `KUBE_CONFIG_PATHS`.
  - It home-expands the paths and turns them into loader rules: one exact file, or an ordered search list.
  - It applies the context overrides only when some path was selected.
  - It lays the static provider-block fields over the overrides. The host is resolved with a TLS default decided by the TLS material given.
  - A failing loader gives "no configuration" rather than an error.
  - `Configure` replaces a missing configuration by an empty one, stamps the user agent and collects the ignore lists as the code does, with every ignored label appended to the annotations list (see Findings).
  - The lazy client getters and `expandStringSlice` are modelled as well.
- **Documents and the upsert** (`documents.dfy`, `store.dfy`, `utils.dfy`).
  - A plan is encoded as a generic document. The reference and template lists become maps keyed by name, and the last duplicate wins. The rollout list stays a list.
  - The document is written with get-then-create-or-update against a store:
    - a Get error other than NotFound is returned;
    - NotFound, or an object without a name, leads to Create;
    - a found object leads to Update carrying its resourceVersion.
  - The store is the `Cluster` class. It keeps a map from (resource, namespace, name) to documents with version tokens, and a ghost log of every request it received. Each method is proved against a pure specification function over the store state.
- **Terraform lifecycle** (`valssecret_resource.dfy`, `dbvalssecret_resource.dfy`, `valssecret_data_source.dfy`, `models.dfy`).
  - Create and Update both run the upsert and store the plan verbatim.
  - Read refreshes a few fields from the cluster: name, namespace and ttl for the ValsSecret; only name and namespace for the DbSecret.
  - Delete removes the object named by the prior state.
  - The data source lists the fetched maps as one entry per key. Map order is unspecified, so the model chooses keys nondeterministically.

Modelling conventions:
- An unset `types.String` attribute is `""` and an unset `types.Bool` is `false`, which is what `ValueString()` and `ValueBool()` return. The `secret_ref` block's fields are plain Go strings instead (see "## Left out").
- A resourceVersion is a natural number, with 0 for the unset token. The store stamps tokens from a counter starting at 1.
- Transport failures come from a per-key `failures` map in the store state. Every request about a listed key fails.
- Refusals of a single verb come from a `rejections` map keyed by (verb, key). Examples are an update the credentials may not perform, or an admission webhook rejecting a create. A Get of the same key is still answered, so the Create or Update error paths of the upsert are reachable on their own.
- A handler's outcome is a `Response`: the value it passed to `State.Set` (or none) and its error diagnostics.

The client-go functions the code calls are parameters of the `ClientGo` value:
- `homedir.Expand`;
- `filepath.SplitList`;
- `restclient.DefaultServerURL`;
- the deferred kubeconfig loader.

The process environment is a map parameter.

Where the code and the design description disagree, the model follows the code:
- The ValsSecret resource has no RequiresReplace on name or namespace. A rename is therefore an in-place upsert under the new name, and the old object is left in the cluster (`RenameOrphansOldObject`).
- The conversion from the generic document to the typed object applies no defaults for ttl or type. The defaults live only in the resource schema (`Planned`).

## Model

| member | source | states |
|---|---|---|
| ObjectStore.GetSpec | internal/provider/utils.go:44-47 | A Get succeeds exactly when the key is stored and not failing, and then returns the stored object. A failing key returns its Transport error. NotFound comes exactly when the key is neither stored nor failing. |
| ObjectStore.CreateSpec | internal/provider/utils.go:115-118 | Create succeeds exactly when the key is neither failing nor refused for create, and the document is named, in the requested namespace, unversioned and absent. On success the whole new state is the old one with the document stored under the next version token and the counter advanced; failures and refusals are kept. On failure nothing changes. A refusal is returned as recorded. Store consistency is kept. |
| ObjectStore.UpdateSpec | internal/provider/utils.go:122-126 | Update succeeds exactly when the key is neither failing nor refused for update, the document is named and in the requested namespace, and it carries the stored object's token. On success the whole new state is the old one with that object replaced by a freshly stamped one and the counter advanced; failures and refusals are kept. On failure nothing changes. A refusal is returned as recorded. Store consistency is kept. |
| ObjectStore.DeleteSpec | internal/provider/utils.go:142 | Delete succeeds exactly when the key is stored, not failing and not refused for delete. It removes that key only; on failure the state is unchanged. A refusal is returned as recorded. |
| ObjectStore.Cluster.Get | internal/provider/utils.go:44 | The class's Get follows GetSpec on its fields and logs one Get request. |
| ObjectStore.Cluster.Create | internal/provider/utils.go:115 | The class's Create follows CreateSpec on its fields and logs one Create request. |
| ObjectStore.Cluster.Update | internal/provider/utils.go:123 | The class's Update follows UpdateSpec on its fields and logs one Update request. |
| ObjectStore.Cluster.Delete | internal/provider/utils.go:142 | The class's Delete follows DeleteSpec on its fields and logs one Delete request. |
| Utils.LastNamed | internal/provider/utils.go:69-80 | The index of the last entry with a given name, or -1. No later entry has that name. |
| Utils.IndexByNameLastWins | internal/provider/utils.go:69-80 | A name is a map key exactly when some entry has it. Its value comes from the last entry with that name. |
| Utils.IndexByNameKeys | internal/provider/utils.go:69-80 | The map's keys are exactly the entries' names. |
| Utils.BuildIndex | internal/provider/utils.go:69-80 | The range loop that fills the refs or templates map yields the last-wins index of the list. |
| Utils.BuildRollouts | internal/provider/utils.go:201-207 | The rollout list keeps the plan's length, order and duplicates, with each element as {name, kind}. |
| Utils.ValsSecretDocument | internal/provider/utils.go:69-98 | The ValsSecret document carries: apiVersion digitalis.io/v1 and kind ValsSecret; metadata and spec name from the plan, with no token; ttl and type verbatim; data keys equal to the secret_ref names, each holding the last {ref, encoding}; template keys equal to the template names, last value winning. |
| Utils.DbSecretDocument | internal/provider/utils.go:197-226 | The DbSecret document carries: apiVersion digitalis.io/v1beta1 and kind DbSecret; vault {role, mount}; a last-wins template map; the rollout list element by element. renew is not sent. |
| Utils.GetFailureStopsUpsert | internal/provider/utils.go:107-111 | A Get failure other than NotFound is returned as it is. Only the Get is sent and the store is unchanged. |
| Utils.AbsentObjectIsCreated | internal/provider/utils.go:113-119 | Against an absent key whose create is not refused, one Get and exactly one Create are sent, never an Update. The document is stored, and the result is the decoding of the sent document. |
| Utils.PresentObjectIsUpdated | internal/provider/utils.go:120-133 | Against a stored key whose update is not refused, one Get and exactly one Update are sent, never a Create. The Update carries the fetched non-empty token, and the result is the sent document with that token. |
| Utils.WriteRejectionIsReturned | internal/provider/utils.go:113-127 | When the server answers the Get but refuses the write, the upsert returns that refusal unchanged (the error returns after Create and Update). The store is unchanged, and exactly the Get and the one refused write are sent: a Create for an absent object, an Update carrying the fetched token for a present one. |
| Utils.FailedUpsertChangesNothing | internal/provider/utils.go:107-133 | Whichever request fails (the Get, the Create or the Update), a failed upsert leaves the store as it was. |
| Utils.UpdateCarriesFetchedToken | internal/provider/utils.go:120-123 | Every Update the upsert sends carries the set token of the object its Get returned. |
| Utils.UpsertTouchesOnlyItsKey | internal/provider/utils.go:107-127 | The upsert leaves every other key of the store as it was. |
| Utils.UpsertSuccessStoresDocument | internal/provider/utils.go:113-127 | After a successful upsert, the document is stored under its own key with a set token. |
| Utils.UpsertTwiceIsIdempotent | internal/provider/utils.go:107-133 | Running the same upsert again takes the Update path. The stored object and the result match the first run's apart from the version token. |
| Utils.GetTyped | internal/provider/utils.go:44-54 | A store Get followed by the typed conversion; a document of the wrong shape is a conversion error. |
| Utils.Upsert | internal/provider/utils.go:107-133 | The get-then-create-or-update steps follow UpsertSpec: the new store state, the requests sent and the result. |
| Utils.GetValsSecret | internal/provider/utils.go:34-55 | Get of valssecrets in digitalis.io/v1 by namespace and name, converted to a ValsSecret. |
| Utils.GetDbSecret | internal/provider/utils.go:162-182 | Get of dbsecrets in digitalis.io/v1beta1 by namespace and name, converted to a DbSecret. |
| Utils.CreateValsSecret | internal/provider/utils.go:57-134 | Builds the maps with the range loops, then upserts the ValsSecret document of the plan. |
| Utils.CreateDbSecret | internal/provider/utils.go:184-260 | Builds the template map and rollout list with loops, then upserts the DbSecret document of the plan. |
| Utils.DeleteValsSecret | internal/provider/utils.go:136-143 | Delete of the valssecrets key for that namespace and name, and nothing else. |
| Utils.DeleteDbSecret | internal/provider/utils.go:262-269 | Delete of the dbsecrets key for that namespace and name, and nothing else. |
| Provider.ExpandAllAllOrNothing | internal/provider/provider.go:393-403 | Path expansion succeeds exactly when every path expands; it keeps length and order. A failure is the error of some path's expansion. |
| Provider.LoaderFromPaths | internal/provider/provider.go:393-409 | No paths gives empty loader rules. One path gives its expansion as the exact file. Two or more give all expansions, in order, as the precedence, with no exact file. |
| Provider.ConfigPathWins | internal/provider/provider.go:381-382 | A non-empty config_path is used alone. config_paths and the environment do not affect the resolution. |
| Provider.ConfigPathsListNext | internal/provider/provider.go:383-386 | Otherwise a non-empty config_paths list is used, and the environment does not affect the resolution. |
| Provider.EnvironmentPathsLast | internal/provider/provider.go:387-391 | Otherwise a set KUBE_CONFIG_PATHS resolves exactly as a config_paths list holding its split parts, even when it splits into none. |
| Provider.NoPathsNoContext | internal/provider/provider.go:393-434 | With no path source, the loader rules are empty and the context, auth-info and cluster fields have no effect. |
| Provider.ExpansionFailureIsAnError | internal/provider/provider.go:395-399 | Any failing expansion of a selected path makes the whole resolution fail with an expansion error. |
| Provider.StaticFieldsOverlay | internal/provider/provider.go:436-487 | insecure is always copied, even when false. TLS server name, CA, client certificate, username, password, client key, token and proxy URL are each set only when non-empty and otherwise keep the base value. The context part is untouched. |
| Provider.HostResolution | internal/provider/provider.go:448-462 | No host leaves the server unchanged. A host is resolved with TLS as the default exactly when CA data, a client certificate or insecure is given. A parse failure returns "failed to parse host: " and the reason. |
| Provider.CredentialsDoNotAffectHost | internal/provider/provider.go:448-474 | Client key, token and username neither affect host resolution nor change the cluster part of the overrides. |
| Provider.ResolvedOverrides | internal/provider/provider.go:393-487 | The resolved overrides are the static overlay over the context overrides, taken only when paths were selected. |
| Provider.LoaderFailureYieldsNoConfig | internal/provider/provider.go:489-496 | A failing loader yields no configuration and no error, and only then. |
| Provider.InitializeConfiguration | internal/provider/provider.go:375-497 | The step-by-step resolution equals the reference definition Resolve. |
| Provider.CollectPaths | internal/provider/provider.go:379-391 | The path-selection code, including the element-by-element copy of config_paths, yields the paths of the precedence. |
| Provider.ExpandPaths | internal/provider/provider.go:393-403 | The expansion loop returns the first expansion error or all expanded paths. |
| Provider.ApplyStaticFields | internal/provider/provider.go:436-487 | The field-by-field overlay equals StaticOverrides. |
| Provider.ApplyTlsFields | internal/provider/provider.go:438-447 | The fields set before the host: insecure unconditionally, the others when non-empty. |
| Provider.ApplyCredentials | internal/provider/provider.go:463-487 | The fields set after the host, each when non-empty. |
| Provider.ConfigureSpec | internal/provider/provider.go:212-266 | An invalid configuration gives the error "Kubernetes config" / "The Kubernetes access config is not correct", and only then. Otherwise the configuration is set, its host is the resolved one (or "" when none was resolved), and its user agent is "HashiCorp/1.0 Terraform/" followed by the version. No client is cached. As written, the annotations list is the ignored annotations followed by the ignored labels, and the labels list is empty. |
| Provider.Configure | internal/provider/provider.go:212-266 | The steps of Configure, including the two ignore-list loops as written, equal ConfigureSpec. |
| Provider.CollectIgnoreLists | internal/provider/provider.go:243-251 | As written, the annotations list receives the annotations followed by the labels, and the labels list stays empty. |
| Provider.CollectIgnoreListsIntended | internal/provider/provider.go:243-251 | Each attribute's elements are collected into its own list, in order. |
| Provider.LabelsLandInAnnotations | internal/provider/provider.go:249-251 | With one ignored label, the code as written reports it as an ignored annotation, unlike the intended loops. |
| Provider.GetClient | internal/provider/provider.go:312-373 | A cached client is returned as it is. With no configuration the answer is nil with no error. Otherwise building the client decides success: a failure is the getter's message prefix followed by the build error, and a success returns the built handle. |
| Provider.RestClientConfig | internal/provider/provider.go:327-329 | Never fails, and returns the stored configuration as it is. |
| Provider.ConfiguredGettersBuild | internal/provider/provider.go:312-373 | On the clientsets a successful Configure returns, RestClientConfig gives the stamped configuration. Every getter fails exactly when building from that configuration fails, with its own message prefix, and otherwise returns the built handle. |
| Provider.ExpandStringSlice | internal/provider/provider.go:522-533 | The result has the same length. Nil elements become "" and every other element is kept. |
| Models.DeleteResponse | internal/provider/valssecret_resource.go:294-300 | Delete sets no state. It adds one "Delete error" diagnostic, with the resource's detail text and the store's error, exactly when the store refused. The DbSecret resource's Delete builds the same response with its own detail text. |
| Models.ApplyResponse | internal/provider/valssecret_resource.go:188-199 | After the upsert, the state is set to the plan exactly when the upsert succeeded. Otherwise the only diagnostic is "Apply failed" with the error. |
| ValsSecretResource.Planned | internal/provider/valssecret_resource.go:110-130 | The plan keeps the configured name, namespace, secret_ref and template. A configured ttl or type is kept; a missing ttl becomes 3600 and a missing type "Opaque". |
| ValsSecretResource.DefaultsReachTheDocument | internal/provider/valssecret_resource.go:119-130 | Without ttl and type, the document is sent with ttl 3600 and type Opaque. |
| ValsSecretResource.ReadRefreshesOnlyIdentityAndTtl | internal/provider/valssecret_resource.go:215-235 | A failed fetch gives the "Unexpected Resource Read Secret" diagnostic and no state. Otherwise secret_ref, template and type keep their prior values and ttl comes from the stored object. |
| ValsSecretResource.ReadOfMissingObjectFails | internal/provider/valssecret_resource.go:215-223 | Reading a resource whose object is gone is an error naming NotFound. |
| ValsSecretResource.ApplyThenReadReturnsPlan | internal/provider/valssecret_resource.go:188-235 | A successful Create or Update stores the plan verbatim, and an immediate Read yields that same state. |
| ValsSecretResource.UpdateOfAbsentObjectCreatesIt | internal/provider/valssecret_resource.go:258-269 | Update runs the same upsert as Create. On a missing object whose create is not refused it sends one Get and one Create and stores the plan. |
| ValsSecretResource.RenameOrphansOldObject | internal/provider/valssecret_resource.go:110-131 | A rename is planned in place, and the upsert under the new name leaves the object under the old name unchanged. |
| ValsSecretResource.DeleteThenReadFails | internal/provider/valssecret_resource.go:280-301 | After a successful Delete, the next Read fails with NotFound. |
| ValsSecretResource.Create | internal/provider/valssecret_resource.go:177-204 | Runs CreateValsSecret on the plan; the response follows ApplyResponse. |
| ValsSecretResource.Read | internal/provider/valssecret_resource.go:206-244 | Fetches by the state's namespace and name and overwrites name, namespace and ttl, following ReadSpec. |
| ValsSecretResource.Update | internal/provider/valssecret_resource.go:246-278 | Runs CreateValsSecret on the plan, exactly as Create does. |
| ValsSecretResource.Delete | internal/provider/valssecret_resource.go:280-301 | Deletes exactly the prior state's namespace and name, with the "Delete error" diagnostic on failure. |
| DbSecretResource.Planned | internal/provider/dbvalssecret_resource.go:110-130 | The plan keeps the configured name, namespace, vault_role, vault_mount, template and rollout. A configured renew is kept, and a missing renew becomes true. |
| DbSecretResource.RenewDefaultsToTrue | internal/provider/dbvalssecret_resource.go:118-123 | Without renew the plan renews, and renew never changes the document sent. |
| DbSecretResource.InPlaceUpdateKeepsIdentity | internal/provider/dbvalssecret_resource.go:110-130 | Replacement is planned exactly when name or namespace changes, so an in-place Update always addresses the prior key. |
| DbSecretResource.ReadRefreshesOnlyIdentity | internal/provider/dbvalssecret_resource.go:223-242 | A failed fetch gives the diagnostic and no state. Otherwise the refreshed state equals the prior one: vault fields, template, rollout and renew are never refreshed. |
| DbSecretResource.ReadOfMissingObjectFails | internal/provider/dbvalssecret_resource.go:223-231 | Reading a resource whose object is gone is an error naming NotFound. |
| DbSecretResource.ApplyThenReadReturnsPlan | internal/provider/dbvalssecret_resource.go:196-242 | A successful Create or Update stores the plan verbatim, and an immediate Read yields that same state. |
| DbSecretResource.UpdateOfAbsentObjectCreatesIt | internal/provider/dbvalssecret_resource.go:265-276 | Update runs the same upsert as Create. On a missing object whose create is not refused it sends one Get and one Create. |
| DbSecretResource.DeleteThenReadFails | internal/provider/dbvalssecret_resource.go:287-308 | After a successful Delete, the next Read fails with NotFound. |
| DbSecretResource.CreateExampleDbSecret | internal/provider/utils.go:184-260 | Creating "example" in "default" on an empty cluster sends one Get, then one Create of the v1beta1 DbSecret document, and returns its identity and vault. |
| DbSecretResource.Create | internal/provider/dbvalssecret_resource.go:185-212 | Runs CreateDbSecret on the plan; the response follows ApplyResponse. |
| DbSecretResource.Read | internal/provider/dbvalssecret_resource.go:214-251 | Fetches by the state's namespace and name and overwrites name and namespace, following ReadSpec. |
| DbSecretResource.Update | internal/provider/dbvalssecret_resource.go:253-285 | Runs CreateDbSecret on the plan, exactly as Create does. |
| DbSecretResource.Delete | internal/provider/dbvalssecret_resource.go:287-308 | Deletes exactly the prior state's namespace and name, with the "Delete error" diagnostic on failure. |
| ValsSecretDataSource.ListingIndexesBack | internal/provider/valssecret_data_source.go:207-222 | Indexing a one-entry-per-key listing of a map by key gives the map back. |
| ValsSecretDataSource.AppendData | internal/provider/valssecret_data_source.go:207-214 | Appends exactly one entry per key of spec.data, carrying that key's ref and encoding, whatever the iteration order. |
| ValsSecretDataSource.AppendTemplate | internal/provider/valssecret_data_source.go:216-222 | Appends exactly one entry per key of spec.template, carrying that key's value, whatever the iteration order. |
| ValsSecretDataSource.Read | internal/provider/valssecret_data_source.go:177-226 | A failed fetch gives the "Unexpected Data Source Read Secret" diagnostic and no state. Otherwise name, namespace and ttl come from the object, type stays as configured, and the maps are listed. |
| ValsSecretDataSource.ReadListsTheMaps | internal/provider/valssecret_data_source.go:203-222 | From a configuration, the entry counts equal the map sizes, indexing the entries gives the maps back, and type stays null. |
| ValsSecretDataSource.DataSourceShowsAppliedPlan | internal/provider/valssecret_data_source.go:203-222 | Reading an object written from a plan gives data entries equal to the plan's last-wins secret_ref index, template entries equal to its template index, and the plan's ttl. |

## Left out

- Logging and tracing are output only and are not modelled: `log.Printf`, `tflog`, `prettyPrint`, `printDebug`, and the HTTP transport wrapping in `Configure`.
- client-go internals are parameters of `ClientGo`: the kubeconfig merge behind `ClientConfig()`, URL parsing in `DefaultServerURL`, `homedir.Expand` and `filepath.SplitList`. `RestConfig` keeps only host and user agent.
- The clientset constructors behind the lazy getters are one opaque `build` function per call.
- `getServerVersion` and `serverVersionGreaterThanOrEqual` make a network call and parse versions in a foreign library.
- The commented-out exec authentication block is not implemented in the code.
- internal/provider/secret_data_source.go is not part of this model. It only copies fields from the typed secrets client.
- Framework plumbing is left out: `Schema` beyond its defaults and RequiresReplace, `Metadata`, `ImportState`, `Resources`/`DataSources` registration, and the type assertions in the resources' `Configure`. `req.Plan/State/Config.Get` is left out, and so are the diagnostics `State.Set` itself may add. Note that in the data source schema the template entries' attribute is named `key`, while the struct tag is `name`; the framework conversion takes no part in the model.
- An omitted `secret_ref.encoding` is not modelled. The source declares the block's fields as plain Go strings while the schema marks `encoding` optional. Reading such a plan into the model fails in the framework, so Create and Update stop with that conversion diagnostic before any upsert. The model's `encoding` is always a string, and it is written as given.
- The dynamic client's own check of an empty name is not modelled. With an empty name, client-go's Get and Delete fail with "name is required" before any request is sent. The model's store instead answers the Get with NotFound, logs it, and the upsert then sends a Create, which fails as `Invalid`. Both end in an error, but the error value and the request log differ.
- The resource's dynamic client is the `Cluster` argument. A resource whose client is still nil (provider not configured) is not modelled.
- ExpandStringSlice: an element that is neither nil nor a string makes the Go type assertion panic. The model's input holds only strings and nils, so that panic is not modelled.
- The ignore-list elements are taken as their text. The quoting that `attr.Value.String()` applies to a string element is not modelled.
- Concurrency is left out: context cancellation, and another writer changing the object between the upsert's Get and Update. The store's Conflict outcome exists, but the model's single-threaded upsert never meets it.
- The `NewDbSecretResource` constructor exists but `Resources()` registers only the ValsSecret resource. The DbSecret handlers are modelled as written.
- Only the document fields the code reads or writes are represented. Store-side defaulting or validation of ValsSecret and DbSecret specs is not modelled.

## Findings

| source | as written | input that shows it | evidently intended | confidence | as-written member | corrected member |
|---|---|---|---|---|---|---|
| internal/provider/provider.go:249-251 | the ignore_labels loop appends to `ignoreAnnotations`, so `IgnoreLabels` is always empty | ignore_annotations = [], ignore_labels = ["app"] gives annotations ["app"] and labels [] | each attribute collected into its own list | high (copy of the loop above it; not executed) | Provider.CollectIgnoreLists, Provider.LabelsLandInAnnotations | Provider.CollectIgnoreListsIntended |

`Configure` and `ConfigureSpec` keep the lists as the code builds them. Nothing in the modelled files reads either list, so the corrected loops change no other member.
