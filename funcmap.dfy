/** The helper functions the generator hands to its template:
    `clientsetname`, `allsynced` and `anyresourcewithdelete`, and the
    template decisions that rest on them. `strings.Title` is the
    parameter `title`, about which nothing is assumed. */
module FuncMap {
  import opened GenConfig
  import opened Strings
  import opened Collaborators

  const KubernetesClientset: string := "kubernetes"

  /** `clientsetname`: the Controller field that holds a clientset's
      client. The built-in clientset is "Kubernetes"; any other is its
      titled name followed by "Client". */
  function ClientsetName(title: string -> string, cs: Clientset): (r: string)
    ensures r == "Kubernetes" <==> cs.name == KubernetesClientset
    ensures cs.name != KubernetesClientset ==>
      |r| >= 6 && r[|r| - 6..] == "Client" && r[..|r| - 6] == title(cs.name)
  {
    if cs.name == KubernetesClientset then "Kubernetes"
    else
      var r := title(cs.name) + "Client";
      assert r[|r| - 1] == 't';
      r
  }

  /** Two clientsets get the same field name only if they are both the
      built-in one or `title` maps their names together. */
  lemma ClientsetNameCollision(title: string -> string, a: Clientset, b: Clientset)
    requires ClientsetName(title, a) == ClientsetName(title, b)
    ensures (a.name == KubernetesClientset && b.name == KubernetesClientset) ||
            (a.name != KubernetesClientset && b.name != KubernetesClientset &&
             title(a.name) == title(b.name))
  {
    var r := ClientsetName(title, a);
    if a.name != KubernetesClientset {
      assert r[..|r| - 6] == title(a.name);
      assert r[..|r| - 6] == title(b.name);
    }
  }

  /** The cache-synced function field of a resource: `c.<Name>Synced`. */
  function SyncName(r: Resource): string
  {
    "c." + r.name + "Synced"
  }

  /** The synced fields of a list of resources, one for one. */
  function SyncNames(rs: seq<Resource>): (names: seq<string>)
    ensures |names| == |rs|
    ensures forall k :: 0 <= k < |rs| ==> names[k] == SyncName(rs[k])
  {
    seq(|rs|, k requires 0 <= k < |rs| => SyncName(rs[k]))
  }

  /** Appending one resource appends its synced field. */
  lemma SyncNamesSnoc(rs: seq<Resource>, r: Resource)
    ensures SyncNames(rs + [r]) == SyncNames(rs) + [SyncName(r)]
  {
    assert SyncNames(rs + [r])[|rs|] == SyncName(r);
  }

  /** Listed with ", ", the synced fields of resources whose names hold
      no comma read back one entry per resource, in order. */
  lemma SyncNamesRoundTrip(rs: seq<Resource>)
    requires forall r :: r in rs ==> ',' !in r.name
    ensures SplitList(Join(SyncNames(rs), ", ")) == SyncNames(rs)
  {
    var names := SyncNames(rs);
    forall k | 0 <= k < |names|
      ensures names[k] != "" && ',' !in names[k]
    {
      assert rs[k] in rs;
      assert names[k] == "c." + rs[k].name + "Synced";
      assert names[k][0] == 'c';
    }
    SplitListJoin(names);
  }

  /** `allsynced`: the `c.<Name>Synced` field of every resource, clientset
      by clientset, API by API, resource by resource, joined with ", ". */
  method AllSynced(c: Config) returns (s: string)
    ensures s == Join(SyncNames(AllResources(c)), ", ")
    ensures AllResources(c) == [] ==> s == ""
    ensures (forall r :: r in AllResources(c) ==> ',' !in r.name) ==>
      SplitList(s) == SyncNames(AllResources(c))
  {
    var syncs: seq<string> := [];
    ghost var visited: seq<Resource> := [];
    var i := 0;
    while i < |c.clientsets|
      invariant 0 <= i <= |c.clientsets|
      invariant visited == ClientsetResources(c.clientsets[..i])
      invariant syncs == SyncNames(visited)
    {
      var cs := c.clientsets[i];
      ghost var before := visited;
      var j := 0;
      while j < |cs.apis|
        invariant 0 <= j <= |cs.apis|
        invariant visited == before + ApiResources(cs.apis[..j])
        invariant syncs == SyncNames(visited)
      {
        var a := cs.apis[j];
        ghost var start := visited;
        var k := 0;
        while k < |a.resources|
          invariant 0 <= k <= |a.resources|
          invariant visited == start + a.resources[..k]
          invariant syncs == SyncNames(visited)
        {
          SyncNamesSnoc(visited, a.resources[k]);
          syncs := syncs + [SyncName(a.resources[k])];
          visited := visited + [a.resources[k]];
          assert a.resources[..k + 1] == a.resources[..k] + [a.resources[k]];
          k := k + 1;
        }
        assert a.resources[..k] == a.resources;
        ApiResourcesPrefix(cs.apis, j);
        j := j + 1;
      }
      assert cs.apis[..j] == cs.apis;
      ClientsetResourcesPrefix(c.clientsets, i);
      i := i + 1;
    }
    assert c.clientsets[..i] == c.clientsets;
    s := Join(syncs, ", ");
    if forall r :: r in AllResources(c) ==> ',' !in r.name {
      SyncNamesRoundTrip(visited);
    }
  }

  /** The specification `anyresourcewithdelete` is checked against. */
  predicate HasDeleteResource(a: Api)
  {
    exists k :: 0 <= k < |a.resources| && a.resources[k].delete
  }

  /** `anyresourcewithdelete`: whether some resource of the API asks for
      deletion notifications. */
  method AnyResourceWithDelete(a: Api) returns (b: bool)
    ensures b == HasDeleteResource(a)
    ensures !b <==> forall r :: r in a.resources ==> !r.delete
  {
    var k := 0;
    while k < |a.resources|
      invariant 0 <= k <= |a.resources|
      invariant forall t :: 0 <= t < k ==> !a.resources[t].delete
    {
      if a.resources[k].delete {
        return true;
      }
      k := k + 1;
    }
    return false;
  }

  const CoreApi: string := "core"

  /** Whether the import block sees the built-in core group, whose
      imports are written out with the version fixed to "v1". */
  predicate IsBuiltinCore(cs: Clientset, a: Api)
  {
    cs.name == KubernetesClientset && a.name == CoreApi
  }

  /** The alias under which the import block imports the typed API
      package of `a`, or None when it does not import it. */
  function TypedImportAlias(cs: Clientset, a: Api): Option<string>
  {
    if !HasDeleteResource(a) then None
    else if IsBuiltinCore(cs, a) then Some("corev1")
    else Some(a.name + a.version)
  }

  /** The package qualifier of the typed object in `DeleteFunc`'s type
      assertions. */
  function TypedQualifier(a: Api): string
  {
    a.name + a.version
  }

  /** The alias under which the import block imports the lister package
      of `a`; it is imported for every API. */
  function ListerImportAlias(cs: Clientset, a: Api): string
  {
    if IsBuiltinCore(cs, a) then "corelisterv1" else a.name + "lister" + a.version
  }

  /** The package qualifier of the lister type in the Controller struct. */
  function ListerQualifier(a: Api): string
  {
    a.name + "lister" + a.version
  }

  /** The typed package is imported exactly when some resource of the API
      gets a `DeleteFunc`, the only code naming it. The imported aliases
      are the qualifiers the generated code uses, except for the built-in
      core group at a version other than "v1", where both the typed and
      the lister alias differ from them. */
  lemma ImportAliasesMatchUse(cs: Clientset, a: Api)
    ensures TypedImportAlias(cs, a).Some? <==> exists r :: r in a.resources && r.delete
    ensures TypedImportAlias(cs, a).Some? ==>
      (TypedImportAlias(cs, a).value == TypedQualifier(a) <==>
       !IsBuiltinCore(cs, a) || a.version == "v1")
    ensures ListerImportAlias(cs, a) == ListerQualifier(a) <==>
      !IsBuiltinCore(cs, a) || a.version == "v1"
  {
    if exists r :: r in a.resources && r.delete {
      var r :| r in a.resources && r.delete;
      var k :| 0 <= k < |a.resources| && a.resources[k] == r;
      assert HasDeleteResource(a);
    }
    if IsBuiltinCore(cs, a) {
      if TypedImportAlias(cs, a).Some? && "corev1" == TypedQualifier(a) {
        assert TypedQualifier(a)[4..] == a.version;
      }
      if "corelisterv1" == ListerQualifier(a) {
        assert ListerQualifier(a)[10..] == a.version;
      }
    }
  }
}
