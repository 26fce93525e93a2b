/**
 * internal/provider/valssecret_data_source.go: the `valsoperator_valssecret`
 * data source.  Read fetches the ValsSecret its configuration names, takes
 * name, namespace and ttl from it, and appends one `data` entry per key of
 * `spec.data` and one `template` entry per key of `spec.template`.  The Go
 * code walks the maps with `range`, whose order is unspecified, so the model
 * picks the next key nondeterministically and its contract states only which
 * entries appear, never their order.
 */
module ValsSecretDataSource {
  import opened Wrappers
  import opened Documents
  import opened ObjectStore
  import opened Models
  import opened Utils

  /** One `data` entry (`TfDataSource`). */
  datatype TfDataSource = TfDataSource(key: string, ref: string, encoding: string)

  /** One `template` entry (`TfTemplateSource`). */
  datatype TfTemplateSource = TfTemplateSource(name: string, value: string)

  /**
   * `ValsSecretDataSourceModel`: `ttl` is optional and `type` computed, so
   * both may be null; the computed lists are empty in a configuration.
   */
  datatype ValsSecretDataSourceModel = ValsSecretDataSourceModel(
    name: string,
    namespace: string,
    data: seq<TfDataSource>,
    template: seq<TfTemplateSource>,
    secretType: Option<string>,
    ttl: Option<int64>)

  function DataKey(e: TfDataSource): string { e.key }
  function DataValue(e: TfDataSource): DataRef { DataRef(e.ref, e.encoding) }
  function TemplateSourceName(e: TfTemplateSource): string { e.name }
  function TemplateSourceValue(e: TfTemplateSource): string { e.value }

  /**
   * `entries` lists the map `m`: every entry carries a key of `m` and that
   * key's value, every key has an entry, and no key has two.
   */
  predicate Lists<E, V(==)>(entries: seq<E>, m: map<string, V>, name: E -> string, value: E -> V)
  {
    && (forall i | 0 <= i < |entries| :: name(entries[i]) in m && value(entries[i]) == m[name(entries[i])])
    && (forall k | k in m :: exists i | 0 <= i < |entries| :: name(entries[i]) == k)
    && (forall i, j | 0 <= i < j < |entries| :: name(entries[i]) != name(entries[j]))
  }

  /** Indexing a listing of `m` by name gives `m` back. */
  lemma ListingIndexesBack<E, V>(entries: seq<E>, m: map<string, V>, name: E -> string, value: E -> V)
    requires Lists(entries, m, name, value)
    ensures IndexByName(entries, name, value) == m
  {
    var back := IndexByName(entries, name, value);
    IndexByNameKeys(entries, name, value);
    assert back.Keys == m.Keys by {
      forall k | k in m ensures k in back {
        var i :| 0 <= i < |entries| && name(entries[i]) == k;
      }
    }
    forall k | k in m ensures back[k] == m[k] {
      IndexByNameLastWins(entries, name, value, k);
    }
  }

  /** The `data` loop of Read: one entry per key of `spec.data`, appended to `prior`. */
  method AppendData(prior: seq<TfDataSource>, m: map<string, DataRef>) returns (entries: seq<TfDataSource>)
    ensures |entries| == |prior| + |m|
    ensures entries[..|prior|] == prior
    ensures Lists(entries[|prior|..], m, DataKey, DataValue)
  {
    entries := prior;
    ghost var added: seq<TfDataSource> := [];
    var remaining := m.Keys;
    while remaining != {}
      invariant remaining <= m.Keys
      invariant entries == prior + added
      invariant |added| + |remaining| == |m|
      invariant forall i | 0 <= i < |added| ::
        added[i].key in m && added[i].key !in remaining && DataValue(added[i]) == m[added[i].key]
      invariant forall k | k in m && k !in remaining :: exists i | 0 <= i < |added| :: added[i].key == k
      invariant forall i, j | 0 <= i < j < |added| :: added[i].key != added[j].key
      decreases |remaining|
    {
      var dataEntry :| dataEntry in remaining;
      var entry := TfDataSource(dataEntry, m[dataEntry].ref, m[dataEntry].encoding);
      ghost var before := added;
      entries := entries + [entry];
      added := added + [entry];
      remaining := remaining - {dataEntry};
      forall k | k in m && k !in remaining ensures exists i | 0 <= i < |added| :: added[i].key == k {
        if k == dataEntry {
          assert added[|before|].key == k;
        } else {
          var i :| 0 <= i < |before| && before[i].key == k;
          assert added[i].key == k;
        }
      }
    }
    assert entries[|prior|..] == added;
  }

  /** The `template` loop of Read: one entry per key of `spec.template`, appended to `prior`. */
  method AppendTemplate(prior: seq<TfTemplateSource>, m: map<string, string>) returns (entries: seq<TfTemplateSource>)
    ensures |entries| == |prior| + |m|
    ensures entries[..|prior|] == prior
    ensures Lists(entries[|prior|..], m, TemplateSourceName, TemplateSourceValue)
  {
    entries := prior;
    ghost var added: seq<TfTemplateSource> := [];
    var remaining := m.Keys;
    while remaining != {}
      invariant remaining <= m.Keys
      invariant entries == prior + added
      invariant |added| + |remaining| == |m|
      invariant forall i | 0 <= i < |added| ::
        added[i].name in m && added[i].name !in remaining && added[i].value == m[added[i].name]
      invariant forall k | k in m && k !in remaining :: exists i | 0 <= i < |added| :: added[i].name == k
      invariant forall i, j | 0 <= i < j < |added| :: added[i].name != added[j].name
      decreases |remaining|
    {
      var k :| k in remaining;
      var entry := TfTemplateSource(k, m[k]);
      ghost var before := added;
      entries := entries + [entry];
      added := added + [entry];
      remaining := remaining - {k};
      forall n | n in m && n !in remaining ensures exists i | 0 <= i < |added| :: added[i].name == n {
        if n == k {
          assert added[|before|].name == n;
        } else {
          var i :| 0 <= i < |before| && before[i].name == n;
          assert added[i].name == n;
        }
      }
    }
    assert entries[|prior|..] == added;
  }

  /** The key of the ValsSecret a configuration names. */
  function ConfigKey(data: ValsSecretDataSourceModel): Key
  {
    Key(ValsSecrets, data.namespace, data.name)
  }

  function ReadFailure(e: ApiError): Diagnostic
  {
    Diagnostic("Unexpected Data Source Read Secret", "Error getting secret from Kubernetes: ", Some(e))
  }

  /**
   * What Read may leave for configuration `data`: on a failed fetch the error
   * diagnostic and no state; otherwise name, namespace and ttl from the
   * fetched object, `type` as configured, and the two maps listed after
   * whatever the lists held before.
   */
  predicate ReadOutcome(st: State, data: ValsSecretDataSourceModel, resp: Response<ValsSecretDataSourceModel>)
  {
    match GetTypedSpec(st, ConfigKey(data), ValsSpecOf)
    case Err(e) => resp == Response(None, [ReadFailure(e)])
    case Ok(s) =>
      && resp.diagnostics == []
      && resp.setState.Some?
      && var d := resp.setState.value;
      && d.name == s.meta.name && d.namespace == s.meta.namespace
      && d.ttl == Some(s.spec.ttl)
      && d.secretType == data.secretType
      && |d.data| == |data.data| + |s.spec.data| && d.data[..|data.data|] == data.data
      && Lists(d.data[|data.data|..], s.spec.data, DataKey, DataValue)
      && |d.template| == |data.template| + |s.spec.template| && d.template[..|data.template|] == data.template
      && Lists(d.template[|data.template|..], s.spec.template, TemplateSourceName, TemplateSourceValue)
  }

  method Read(c: Cluster, data: ValsSecretDataSourceModel) returns (resp: Response<ValsSecretDataSourceModel>)
    modifies c`calls
    ensures ReadOutcome(c.Snapshot(), data, resp)
    ensures c.calls == old(c.calls) + [GetCall(ConfigKey(data))]
  {
    var s := GetValsSecret(c, data.name, data.namespace);
    if s.Err? {
      return Response(None, [ReadFailure(s.error)]);
    }
    var d := data;
    d := d.(name := s.value.meta.name);
    d := d.(namespace := s.value.meta.namespace);
    d := d.(ttl := Some(s.value.spec.ttl));
    var dataEntries := AppendData(d.data, s.value.spec.data);
    d := d.(data := dataEntries);
    var templateEntries := AppendTemplate(d.template, s.value.spec.template);
    d := d.(template := templateEntries);
    resp := Response(Some(d), []);
  }

  /**
   * Read from a configuration (whose computed lists are empty) yields the
   * fetched maps exactly: indexing the entries by key gives `spec.data` and
   * `spec.template` back, and the computed `type` stays null.
   */
  lemma ReadListsTheMaps(st: State, data: ValsSecretDataSourceModel, resp: Response<ValsSecretDataSourceModel>)
    requires data.data == [] && data.template == [] && data.secretType.None?
    requires ReadOutcome(st, data, resp)
    requires resp.setState.Some?
    ensures var s := GetTypedSpec(st, ConfigKey(data), ValsSpecOf);
      var d := resp.setState.value;
      && s.Ok?
      && IndexByName(d.data, DataKey, DataValue) == s.value.spec.data
      && IndexByName(d.template, TemplateSourceName, TemplateSourceValue) == s.value.spec.template
      && |d.data| == |s.value.spec.data| && |d.template| == |s.value.spec.template|
      && d.secretType.None?
  {
    var s := GetTypedSpec(st, ConfigKey(data), ValsSpecOf).value;
    var d := resp.setState.value;
    assert d.data[0..] == d.data;
    assert d.template[0..] == d.template;
    ListingIndexesBack(d.data, s.spec.data, DataKey, DataValue);
    ListingIndexesBack(d.template, s.spec.template, TemplateSourceName, TemplateSourceValue);
  }

  /**
   * A ValsSecret written by the resource from `plan`, read back through the
   * data source: the data entries, indexed by key, are the plan's secret_ref
   * blocks indexed by name with the last duplicate winning (and likewise for
   * the templates), and the ttl is the plan's.
   */
  lemma DataSourceShowsAppliedPlan(st: State, data: ValsSecretDataSourceModel, plan: ValsSecretResourceModel,
                                   resp: Response<ValsSecretDataSourceModel>)
    requires data.data == [] && data.template == [] && data.secretType.None?
    requires ConfigKey(data) in st.objects && ConfigKey(data) !in st.failures
    requires st.objects[ConfigKey(data)].spec == EncodeValsSecret(plan).spec
    requires ReadOutcome(st, data, resp)
    ensures resp.setState.Some?
    ensures var d := resp.setState.value;
      && d.ttl == Some(plan.ttl)
      && IndexByName(d.data, DataKey, DataValue) == IndexByName(plan.secretRef, RefName, RefValue)
      && IndexByName(d.template, TemplateSourceName, TemplateSourceValue) == IndexByName(plan.template, TemplateName, TemplateValue)
  {
    ReadListsTheMaps(st, data, resp);
    var d := resp.setState.value;
    var doc := EncodeValsSecret(plan);
    assert GetSpec(st, ConfigKey(data)) == Ok(st.objects[ConfigKey(data)]);
    var s := GetTypedSpec(st, ConfigKey(data), ValsSpecOf).value;
    assert s.spec == doc.spec.vals;

  }
}
