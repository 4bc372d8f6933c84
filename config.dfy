/** The generator's configuration: clientsets hold API groups, which hold
    the watched resources. */
module GenConfig {

  /** One watched resource kind and the notifications it subscribes to. */
  datatype Resource = Resource(
    name: string,
    plural: string,
    scope: string,
    create: bool,
    update: bool,
    delete: bool)

  /** An API group at one version. */
  datatype Api = Api(name: string, group: string, version: string, resources: seq<Resource>)

  /** A clientset: the built-in "kubernetes" one or a generated one. */
  datatype Clientset = Clientset(name: string, importPath: string, defaultResync: int, apis: seq<Api>)

  datatype Config = Config(
    package: string,
    clientsets: seq<Clientset>,
    controllerExtra: string,
    imports: string)

  /** The resources of a list of APIs, API by API, each in its own order. */
  function ApiResources(apis: seq<Api>): seq<Resource>
  {
    if apis == [] then []
    else ApiResources(apis[..|apis| - 1]) + apis[|apis| - 1].resources
  }

  /** The resources of a list of clientsets, clientset by clientset. */
  function ClientsetResources(css: seq<Clientset>): seq<Resource>
  {
    if css == [] then []
    else ClientsetResources(css[..|css| - 1]) + ApiResources(css[|css| - 1].apis)
  }

  /** Every resource of the configuration, in the order the template's
      nested `range` loops visit them. */
  function AllResources(c: Config): seq<Resource>
  {
    ClientsetResources(c.clientsets)
  }

  /** One more API extends the listing by that API's resources. */
  lemma ApiResourcesPrefix(apis: seq<Api>, j: nat)
    requires j < |apis|
    ensures ApiResources(apis[..j + 1]) == ApiResources(apis[..j]) + apis[j].resources
  {
    assert apis[..j + 1][..j] == apis[..j];
  }

  /** One more clientset extends the listing by that clientset's resources. */
  lemma ClientsetResourcesPrefix(css: seq<Clientset>, i: nat)
    requires i < |css|
    ensures ClientsetResources(css[..i + 1]) == ClientsetResources(css[..i]) + ApiResources(css[i].apis)
  {
    assert css[..i + 1][..i] == css[..i];
  }

  /** Listing the resources of two runs of APIs one after the other
      lists the first run's resources first. */
  lemma {:induction false} ApiResourcesAppend(xs: seq<Api>, ys: seq<Api>)
    ensures ApiResources(xs + ys) == ApiResources(xs) + ApiResources(ys)
    decreases |ys|
  {
    if ys == [] {
      assert xs + ys == xs;
    } else {
      var last := ys[|ys| - 1];
      assert (xs + ys)[..|xs + ys| - 1] == xs + ys[..|ys| - 1];
      ApiResourcesAppend(xs, ys[..|ys| - 1]);
      calc {
        ApiResources(xs + ys);
        ApiResources(xs + ys[..|ys| - 1]) + last.resources;
        ApiResources(xs) + ApiResources(ys[..|ys| - 1]) + last.resources;
        ApiResources(xs) + ApiResources(ys);
      }
    }
  }

  /** The same for clientsets: the configuration order is kept. */
  lemma {:induction false} ClientsetResourcesAppend(xs: seq<Clientset>, ys: seq<Clientset>)
    ensures ClientsetResources(xs + ys) == ClientsetResources(xs) + ClientsetResources(ys)
    decreases |ys|
  {
    if ys == [] {
      assert xs + ys == xs;
    } else {
      var last := ys[|ys| - 1];
      assert (xs + ys)[..|xs + ys| - 1] == xs + ys[..|ys| - 1];
      ClientsetResourcesAppend(xs, ys[..|ys| - 1]);
      calc {
        ClientsetResources(xs + ys);
        ClientsetResources(xs + ys[..|ys| - 1]) + ApiResources(last.apis);
        ClientsetResources(xs) + ClientsetResources(ys[..|ys| - 1]) + ApiResources(last.apis);
        ClientsetResources(xs) + ClientsetResources(ys);
      }
    }
  }

  /** A resource is listed for a run of APIs exactly when one of them
      declares it. */
  lemma {:induction false} InApiResources(apis: seq<Api>, r: Resource)
    ensures r in ApiResources(apis) <==> exists j :: 0 <= j < |apis| && r in apis[j].resources
    decreases |apis|
  {
    if apis != [] {
      var init := apis[..|apis| - 1];
      InApiResources(init, r);
      if r in apis[|apis| - 1].resources {
        assert r in ApiResources(apis);
      }
      if exists j :: 0 <= j < |apis| && r in apis[j].resources {
        var j :| 0 <= j < |apis| && r in apis[j].resources;
        if j < |apis| - 1 {
          assert init[j] == apis[j];
        }
      }
      if r in ApiResources(init) {
        var j :| 0 <= j < |init| && r in init[j].resources;
        assert apis[j] == init[j];
      }
    }
  }

  /** A resource is listed for a configuration exactly when some API of
      some clientset declares it. */
  lemma {:induction false} InAllResources(c: Config, r: Resource)
    ensures r in AllResources(c) <==>
      exists i, j :: 0 <= i < |c.clientsets| && 0 <= j < |c.clientsets[i].apis| &&
        r in c.clientsets[i].apis[j].resources
  {
    InClientsetResources(c.clientsets, r);
  }

  lemma {:induction false} InClientsetResources(css: seq<Clientset>, r: Resource)
    ensures r in ClientsetResources(css) <==>
      exists i, j :: 0 <= i < |css| && 0 <= j < |css[i].apis| && r in css[i].apis[j].resources
    decreases |css|
  {
    if css != [] {
      var init := css[..|css| - 1];
      var last := css[|css| - 1];
      InClientsetResources(init, r);
      InApiResources(last.apis, r);
      if r in ApiResources(last.apis) {
        var j :| 0 <= j < |last.apis| && r in last.apis[j].resources;
        assert css[|css| - 1].apis[j] == last.apis[j];
      }
      if exists i, j :: 0 <= i < |css| && 0 <= j < |css[i].apis| && r in css[i].apis[j].resources {
        var i, j :| 0 <= i < |css| && 0 <= j < |css[i].apis| && r in css[i].apis[j].resources;
        if i < |css| - 1 {
          assert init[i] == css[i];
        }
      }
      if r in ClientsetResources(init) {
        var i, j :| 0 <= i < |init| && 0 <= j < |init[i].apis| && r in init[i].apis[j].resources;
        assert css[i] == init[i];
      }
    }
  }
}
