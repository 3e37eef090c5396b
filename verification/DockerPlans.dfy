/** Two planning loops of BE/internal/machine/docker.go: which services a start touches, and
    how a container's environment is put together. */
module DockerPlans {
  import opened Wrappers

  // ---- plannedStartServices ----

  datatype Service = Service(key: string, serviceType: string, status: string, container: Option<string>)

  /** Agents are started only with a paused machine, and only those that were up. */
  predicate StartIncludes(paused: bool, s: Service) {
    s.serviceType != "agent" || (paused && (s.status == "running" || s.status == "paused"))
  }

  /** The terminal endpoint lives in the IDE's container, whose entrypoint wants the IDE's secrets. */
  predicate Prefer(candidate: Service, current: Service) {
    current.serviceType == "terminal" && candidate.serviceType == "ide"
  }

  predicate HasContainer(s: Service) {
    s.container.Some? && s.container.value != ""
  }

  /** The services to be started that live in a container, in order. */
  function In(services: seq<Service>, paused: bool, container: string): seq<Service> {
    if services == [] then []
    else
      var s := services[|services| - 1];
      In(services[..|services| - 1], paused, container) +
      if StartIncludes(paused, s) && HasContainer(s) && s.container.value == container then [s] else []
  }

  /** The services to be started that have no container yet. */
  function Homeless(services: seq<Service>, paused: bool): seq<Service> {
    if services == [] then []
    else
      var s := services[|services| - 1];
      Homeless(services[..|services| - 1], paused) + if StartIncludes(paused, s) && !HasContainer(s) then [s] else []
  }

  /** Who speaks for a container: the first service in it, unless that is a terminal and an
      IDE is there too. */
  function Speaker(group: seq<Service>): Service
    requires group != []
  {
    if group[0].serviceType == "terminal" && FirstIde(group).Some? then FirstIde(group).value else group[0]
  }

  function FirstIde(group: seq<Service>): Option<Service> {
    if group == [] then None
    else
      var before := FirstIde(group[..|group| - 1]);
      if before.Some? then before else if group[|group| - 1].serviceType == "ide" then Some(group[|group| - 1]) else None
  }

  lemma {:induction false} FirstIdeIsIde(group: seq<Service>)
    ensures FirstIde(group).Some? ==> FirstIde(group).value.serviceType == "ide"
  {
    if group != [] {
      FirstIdeIsIde(group[..|group| - 1]);
    }
  }

  lemma SpeakerAfter(group: seq<Service>, s: Service)
    requires group != []
    ensures Speaker(group + [s]) == if Prefer(s, Speaker(group)) then s else Speaker(group)
  {
    assert (group + [s])[..|group|] == group;
    FirstIdeIsIde(group);
  }

  lemma SpeakerAlone(s: Service)
    ensures Speaker([s]) == s
  {
    var group := [s];
    assert group[..|group| - 1] == [];
    FirstIdeIsIde(group);
  }

  /** The index knows exactly the containers of the plan, and where they are. */
  ghost predicate Indexed(planned: seq<Service>, index: map<string, nat>) {
    && (forall i :: 0 <= i < |planned| && HasContainer(planned[i]) ==>
          planned[i].container.value in index && index[planned[i].container.value] == i)
    && (forall c :: c in index ==> index[c] < |planned| && HasContainer(planned[index[c]]) && planned[index[c]].container.value == c)
  }

  /** The plan speaks for the services of one container, if there are any. */
  ghost predicate SpeaksFor(group: seq<Service>, planned: seq<Service>, index: map<string, nat>, c: string) {
    (c in index <==> group != []) && (c in index ==> index[c] < |planned| && planned[index[c]] == Speaker(group))
  }

  ghost predicate Spoken(services: seq<Service>, paused: bool, planned: seq<Service>, index: map<string, nat>) {
    forall c :: SpeaksFor(In(services, paused, c), planned, index, c)
  }

  lemma InNext(services: seq<Service>, s: Service, paused: bool, c: string)
    ensures In(services + [s], paused, c) ==
            if StartIncludes(paused, s) && HasContainer(s) && s.container.value == c
            then In(services, paused, c) + [s] else In(services, paused, c)
  {
    assert (services + [s])[..|services|] == services;
  }

  /** The services that are started in a container: all of it but agents, and of those the
      ones that were up, when the machine was paused. */
  lemma {:induction false} StartedIn(services: seq<Service>, paused: bool, container: string, s: Service)
    requires container != ""
    ensures s in In(services, paused, container) <==>
            s in services && s.container == Some(container) && (s.serviceType == "agent" ==> paused && (s.status == "running" || s.status == "paused"))
  {
    if services != [] {
      StartedIn(services[..|services| - 1], paused, container, s);
      assert services == services[..|services| - 1] + [services[|services| - 1]];
    }
  }

  lemma SpokenSkips(services: seq<Service>, s: Service, paused: bool, planned: seq<Service>, index: map<string, nat>)
    requires Spoken(services, paused, planned, index) && !(StartIncludes(paused, s) && HasContainer(s))
    ensures Spoken(services + [s], paused, planned, index) && Spoken(services + [s], paused, planned + [s], index)
  {
    forall c
      ensures SpeaksFor(In(services + [s], paused, c), planned, index, c) && SpeaksFor(In(services + [s], paused, c), planned + [s], index, c)
    {
      InNext(services, s, paused, c);
      assert SpeaksFor(In(services, paused, c), planned, index, c);
    }
  }

  lemma SpokenKnown(services: seq<Service>, s: Service, paused: bool, planned: seq<Service>, index: map<string, nat>)
    requires Spoken(services, paused, planned, index) && Indexed(planned, index) && StartIncludes(paused, s) && HasContainer(s)
    requires s.container.value in index
    ensures var k := index[s.container.value];
      Spoken(services + [s], paused, if Prefer(s, planned[k]) then planned[k := s] else planned, index)
  {
    var k := index[s.container.value];
    var after := if Prefer(s, planned[k]) then planned[k := s] else planned;
    forall c
      ensures SpeaksFor(In(services + [s], paused, c), after, index, c)
    {
      InNext(services, s, paused, c);
      assert SpeaksFor(In(services, paused, c), planned, index, c);
      if c == s.container.value {
        SpeakerAfter(In(services, paused, c), s);
      }
    }
  }

  lemma SpokenNew(services: seq<Service>, s: Service, paused: bool, planned: seq<Service>, index: map<string, nat>)
    requires Spoken(services, paused, planned, index) && StartIncludes(paused, s) && HasContainer(s) && s.container.value !in index
    ensures Spoken(services + [s], paused, planned + [s], index[s.container.value := |planned|])
  {
    var after := index[s.container.value := |planned|];
    SpeakerAlone(s);
    forall c
      ensures SpeaksFor(In(services + [s], paused, c), planned + [s], after, c)
    {
      InNext(services, s, paused, c);
      assert SpeaksFor(In(services, paused, c), planned, index, c);
    }
  }

  lemma {:induction false} IncludedIsIn(services: seq<Service>, paused: bool, s: Service)
    requires s in services && StartIncludes(paused, s) && HasContainer(s)
    ensures In(services, paused, s.container.value) != []
  {
    if services[|services| - 1] != s {
      assert services == services[..|services| - 1] + [services[|services| - 1]];
      IncludedIsIn(services[..|services| - 1], paused, s);
    }
  }

  /** Each container is planned once, through its speaker; services without one are all kept. */
  method PlannedStartServices(paused: bool, services: seq<Service>) returns (planned: seq<Service>)
    ensures forall i, j :: 0 <= i < j < |planned| && HasContainer(planned[i]) ==> planned[j].container != planned[i].container
    ensures forall s :: s in planned && HasContainer(s) ==>
              In(services, paused, s.container.value) != [] && s == Speaker(In(services, paused, s.container.value))
    ensures forall s :: s in services && StartIncludes(paused, s) && HasContainer(s) ==>
              exists p :: p in planned && p.container == s.container
    ensures Homeless(planned, paused) == Homeless(services, paused)
  {
    planned := [];
    var indexByContainer: map<string, nat> := map[];
    hide Spoken, Indexed, Prefer, StartIncludes, Homeless, In;
    NothingSpoken(paused);
    assert services[..0] == [];
    for n := 0 to |services|
      invariant Indexed(planned, indexByContainer)
      invariant Spoken(services[..n], paused, planned, indexByContainer)
      invariant Homeless(planned, paused) == Homeless(services[..n], paused)
    {
      var service := services[n];
      assert services[..n + 1] == services[..n] + [service];
      HomelessNext(services[..n], service, paused);
      HomelessNext(planned, service, paused);
      if !StartIncludes(paused, service) {
        SpokenSkips(services[..n], service, paused, planned, indexByContainer);
      } else if !HasContainer(service) {
        SpokenSkips(services[..n], service, paused, planned, indexByContainer);
        IndexedGrows(planned, indexByContainer, service);
        planned := planned + [service];
      } else if service.container.value in indexByContainer {
        var index := indexByContainer[service.container.value];
        SpokenKnown(services[..n], service, paused, planned, indexByContainer);
        IndexedReplaces(planned, indexByContainer, service);
        if Prefer(service, planned[index]) {
          HomelessAfterReplace(planned, paused, index, service);
          planned := planned[index := service];
        }
      } else {
        SpokenNew(services[..n], service, paused, planned, indexByContainer);
        IndexedGrows(planned, indexByContainer, service);
        indexByContainer := indexByContainer[service.container.value := |planned|];
        planned := planned + [service];
      }
    }
    assert services[..|services|] == services;
    PlanSpeaks(services, paused, planned, indexByContainer);
  }

  lemma HomelessNext(services: seq<Service>, s: Service, paused: bool)
    ensures Homeless(services + [s], paused) ==
            if StartIncludes(paused, s) && !HasContainer(s) then Homeless(services, paused) + [s] else Homeless(services, paused)
  {
    assert (services + [s])[..|services|] == services;
  }

  lemma NothingSpoken(paused: bool)
    ensures Spoken([], paused, [], map[]) && Indexed([], map[])
  {}

  lemma IndexedGrows(planned: seq<Service>, index: map<string, nat>, s: Service)
    requires Indexed(planned, index) && (HasContainer(s) ==> s.container.value !in index)
    ensures Indexed(planned + [s], if HasContainer(s) then index[s.container.value := |planned|] else index)
  {}

  lemma IndexedReplaces(planned: seq<Service>, index: map<string, nat>, s: Service)
    requires Indexed(planned, index) && HasContainer(s) && s.container.value in index
    ensures var k := index[s.container.value];
      k < |planned| && HasContainer(planned[k]) && Indexed(planned[k := s], index)
  {}

  lemma PlanSpeaks(services: seq<Service>, paused: bool, planned: seq<Service>, index: map<string, nat>)
    requires Indexed(planned, index) && Spoken(services, paused, planned, index)
    ensures forall i, j :: 0 <= i < j < |planned| && HasContainer(planned[i]) ==> planned[j].container != planned[i].container
    ensures forall s :: s in planned && HasContainer(s) ==>
              In(services, paused, s.container.value) != [] && s == Speaker(In(services, paused, s.container.value))
    ensures forall s :: s in services && StartIncludes(paused, s) && HasContainer(s) ==>
              exists p :: p in planned && p.container == s.container
  {
    forall s | s in planned && HasContainer(s)
      ensures In(services, paused, s.container.value) != [] && s == Speaker(In(services, paused, s.container.value))
    {
      assert SpeaksFor(In(services, paused, s.container.value), planned, index, s.container.value);
    }
    forall s | s in services && StartIncludes(paused, s) && HasContainer(s)
      ensures exists p :: p in planned && p.container == s.container
    {
      IncludedIsIn(services, paused, s);
      assert SpeaksFor(In(services, paused, s.container.value), planned, index, s.container.value);
      assert planned[index[s.container.value]].container == s.container;
    }
  }

  lemma {:induction false} HomelessAfterReplace(planned: seq<Service>, paused: bool, index: nat, s: Service)
    requires index < |planned| && HasContainer(planned[index]) && HasContainer(s)
    ensures Homeless(planned[index := s], paused) == Homeless(planned, paused)
  {
    var last := |planned| - 1;
    if index < last {
      assert planned[index := s][..last] == planned[..last][index := s];
      HomelessAfterReplace(planned[..last], paused, index, s);
    } else {
      assert planned[index := s][..last] == planned[..last];
    }
  }

  // ---- mergeEnvironment ----

  /** The position of the first '='. */
  function EqualsAt(item: string): Option<nat> {
    if item == "" then None
    else if item[0] == '=' then Some(0)
    else match EqualsAt(item[1..]) case None => None case Some(i) => Some(i + 1)
  }

  lemma {:induction false} EqualsWithin(item: string)
    ensures EqualsAt(item).Some? ==> EqualsAt(item).value < |item|
  {
    if item != "" && item[0] != '=' {
      EqualsWithin(item[1..]);
    }
  }

  /** The name an item defines; an item without '=', or with nothing before it, defines none. */
  function NameOf(item: string): Option<string> {
    EqualsWithin(item);
    if EqualsAt(item).Some? && EqualsAt(item).value > 0 then Some(item[..EqualsAt(item).value]) else None
  }

  /** The last item that defines a name, which is the one a process sees. */
  function Effective(items: seq<string>, name: string): Option<string> {
    if items == [] then None
    else if NameOf(items[|items| - 1]) == Some(name) then Some(items[|items| - 1])
    else Effective(items[..|items| - 1], name)
  }

  predicate Defines(items: seq<string>, name: string) {
    exists item :: item in items && NameOf(item) == Some(name)
  }

  lemma {:induction false} EffectiveConcat(a: seq<string>, b: seq<string>, name: string)
    ensures Effective(a + b, name) == if Effective(b, name).Some? then Effective(b, name) else Effective(a, name)
  {
    if b == [] {
      assert a + b == a;
    } else {
      assert (a + b)[..|a + b| - 1] == a + b[..|b| - 1];
      EffectiveConcat(a, b[..|b| - 1], name);
    }
  }

  lemma {:induction false} EffectiveIffDefined(items: seq<string>, name: string)
    ensures Effective(items, name).Some? <==> Defines(items, name)
  {
    if items != [] {
      EffectiveIffDefined(items[..|items| - 1], name);
      assert items == items[..|items| - 1] + [items[|items| - 1]];
    }
  }

  /** The items of the base that no override redefines. */
  function Kept(base: seq<string>, overrides: seq<string>): seq<string> {
    if base == [] then []
    else
      var item := base[|base| - 1];
      Kept(base[..|base| - 1], overrides) + if NameOf(item).Some? && Defines(overrides, NameOf(item).value) then [] else [item]
  }

  lemma {:induction false} KeptEffective(base: seq<string>, overrides: seq<string>, name: string)
    ensures Effective(Kept(base, overrides), name) == if Defines(overrides, name) then None else Effective(base, name)
  {
    if base != [] {
      var rest, item := base[..|base| - 1], base[|base| - 1];
      KeptEffective(rest, overrides, name);
      EffectiveConcat(Kept(rest, overrides), [item], name);
      assert Effective([item], name) == if NameOf(item) == Some(name) then Some(item) else None;
      assert Kept(rest, overrides) + [] == Kept(rest, overrides);
    }
  }

  /** Every name an override defines has the override's value, every other name the base's,
      and what is redefined appears once only if the overrides themselves say it once. */
  method MergeEnvironment(base: seq<string>, overrides: seq<string>) returns (result: seq<string>)
    ensures result == Kept(base, overrides) + overrides
    ensures forall name :: Effective(result, name) == if Defines(overrides, name) then Effective(overrides, name) else Effective(base, name)
  {
    var overridden: set<string> := {};
    for n := 0 to |overrides|
      invariant forall name :: name in overridden <==> Defines(overrides[..n], name)
    {
      assert overrides[..n + 1] == overrides[..n] + [overrides[n]];
      if NameOf(overrides[n]).Some? {
        overridden := overridden + {NameOf(overrides[n]).value};
      }
    }
    assert overrides[..|overrides|] == overrides;
    result := [];
    for n := 0 to |base|
      invariant result == Kept(base[..n], overrides)
    {
      assert base[..n + 1][..n] == base[..n];
      if NameOf(base[n]).Some? && NameOf(base[n]).value in overridden {
        continue;
      }
      result := result + [base[n]];
    }
    assert base[..|base|] == base;
    forall name
      ensures Effective(result + overrides, name) == if Defines(overrides, name) then Effective(overrides, name) else Effective(base, name)
    {
      EffectiveConcat(result, overrides, name);
      EffectiveIffDefined(overrides, name);
      KeptEffective(base, overrides, name);
    }
    result := result + overrides;
  }
}
