/** Plugin composition: the capability selection loop of `Registrar::finish` and the
    dependency maps it hands to the graph (crates/plugin/plugin/src/lib.rs). */
module PluginSelection {
  import opened Digraph
  import opened PluginGraph

  type Capability = Node

  datatype Candidate = Candidate(capability: Capability, key: string)

  datatype Descriptor = Descriptor(
    id: PluginId, dependencies: set<PluginId>,
    capabilityDependencies: set<Capability>, optionalCapabilityDependencies: set<Capability>,
    provider: Option<Candidate>)

  datatype Binding = Binding(key: string, owner: PluginId)

  datatype Source = CompositionRoot | Plugin(id: PluginId)

  // Capability requirements with who asks for them, flattened from a map of sets.
  type Requirements = set<(Capability, Source)>

  predicate Provides(d: Descriptor, c: Capability) {
    d.provider.Some? && d.provider.value.capability == c
  }

  function BindingOf(d: Descriptor): Binding
    requires d.provider.Some?
  {
    Binding(d.provider.value.key, d.id)
  }

  // A plugin that provides nothing is always active; a provider only when bound.
  predicate IsActive(d: Descriptor, bindings: map<Capability, Binding>) {
    d.provider.None? || exists c | c in bindings :: bindings[c].owner == d.id
  }

  ghost predicate SoleProvider(ds: set<Descriptor>, d: Descriptor, c: Capability) {
    d in ds && Provides(d, c) && forall e | e in ds && Provides(e, c) :: e == d
  }

  ghost predicate Required(required: Requirements, c: Capability) {
    exists s :: (c, s) in required
  }

  // ---------------------------------------------------------------------
  // What the loop computes.
  // ---------------------------------------------------------------------

  // Bindings are the explicit selections and, elsewhere, sole providers.
  ghost predicate SoundBindings(ds: set<Descriptor>, selected: map<Capability, Binding>,
                                bindings: map<Capability, Binding>) {
    forall c | c in bindings ::
      if c in selected then bindings[c] == selected[c]
      else exists d :: SoleProvider(ds, d, c) && bindings[c] == BindingOf(d)
  }

  // Nothing more can be required or bound.
  ghost predicate ClosedSelection(ds: set<Descriptor>, roots: set<Capability>, selected: map<Capability, Binding>,
                                  required: Requirements, bindings: map<Capability, Binding>) {
    && selected.Keys <= bindings.Keys && SoundBindings(ds, selected, bindings)
    && (forall c | c in roots :: (c, CompositionRoot) in required)
    && (forall d, c | d in ds && IsActive(d, bindings) && c in d.capabilityDependencies ::
        (c, Plugin(d.id)) in required)
    && (forall d, c | Required(required, c) && c !in selected && SoleProvider(ds, d, c) :: c in bindings)
  }

  ghost predicate BelowEveryClosed(ds: set<Descriptor>, roots: set<Capability>, selected: map<Capability, Binding>,
                                   required: Requirements, bindings: map<Capability, Binding>) {
    forall r, b | ClosedSelection(ds, roots, selected, r, b) :: required <= r && bindings.Keys <= b.Keys
  }

  // The least fixpoint of requirements and bindings.
  ghost predicate LeastSelection(ds: set<Descriptor>, roots: set<Capability>, selected: map<Capability, Binding>,
                                 required: Requirements, bindings: map<Capability, Binding>) {
    && ClosedSelection(ds, roots, selected, required, bindings)
    && BelowEveryClosed(ds, roots, selected, required, bindings)
  }

  // Sound bindings agree wherever both bind, so a smaller key set activates no more plugins.
  lemma SoundBindingsAgree(ds: set<Descriptor>, selected: map<Capability, Binding>,
                           a: map<Capability, Binding>, b: map<Capability, Binding>, c: Capability)
    requires SoundBindings(ds, selected, a) && SoundBindings(ds, selected, b) && c in a && c in b
    ensures a[c] == b[c]
  {
    if c !in selected {
      var d :| SoleProvider(ds, d, c) && a[c] == BindingOf(d);
      var e :| SoleProvider(ds, e, c) && b[c] == BindingOf(e);
    }
  }

  lemma ActiveGrows(ds: set<Descriptor>, selected: map<Capability, Binding>,
                    a: map<Capability, Binding>, b: map<Capability, Binding>, d: Descriptor)
    requires SoundBindings(ds, selected, a) && SoundBindings(ds, selected, b) && a.Keys <= b.Keys
    requires IsActive(d, a)
    ensures IsActive(d, b)
  {
    if d.provider.Some? {
      var c :| c in a && a[c].owner == d.id;
      SoundBindingsAgree(ds, selected, a, b, c);
      assert c in b && b[c].owner == d.id;
    }
  }

  /** The selection depends on the set of plugins alone: two least selections are equal. */
  lemma SelectionUnique(ds: set<Descriptor>, roots: set<Capability>, selected: map<Capability, Binding>,
                        r1: Requirements, b1: map<Capability, Binding>, r2: Requirements, b2: map<Capability, Binding>)
    requires LeastSelection(ds, roots, selected, r1, b1) && LeastSelection(ds, roots, selected, r2, b2)
    ensures r1 == r2 && b1 == b2
  {
    assert b1.Keys == b2.Keys;
    forall c | c in b1 ensures b1[c] == b2[c] {
      SoundBindingsAgree(ds, selected, b1, b2, c);
    }
  }

  // One step of either inner loop stays below every closed selection.
  lemma RequireStep(ds: set<Descriptor>, roots: set<Capability>, selected: map<Capability, Binding>,
                    required: Requirements, bindings: map<Capability, Binding>, d: Descriptor, c: Capability)
    requires SoundBindings(ds, selected, bindings)
    requires BelowEveryClosed(ds, roots, selected, required, bindings)
    requires d in ds && IsActive(d, bindings) && c in d.capabilityDependencies
    ensures BelowEveryClosed(ds, roots, selected, required + {(c, Plugin(d.id))}, bindings)
  {
    forall r, b | ClosedSelection(ds, roots, selected, r, b) ensures (c, Plugin(d.id)) in r {
      ActiveGrows(ds, selected, bindings, b, d);
    }
  }

  lemma BindStep(ds: set<Descriptor>, roots: set<Capability>, selected: map<Capability, Binding>,
                 required: Requirements, bindings: map<Capability, Binding>, d: Descriptor, c: Capability)
    requires SoundBindings(ds, selected, bindings)
    requires BelowEveryClosed(ds, roots, selected, required, bindings)
    requires Required(required, c) && c !in selected && SoleProvider(ds, d, c)
    ensures SoundBindings(ds, selected, bindings[c := BindingOf(d)])
    ensures BelowEveryClosed(ds, roots, selected, required, bindings[c := BindingOf(d)])
  {
    forall r, b | ClosedSelection(ds, roots, selected, r, b) ensures c in b {
      var s :| (c, s) in required;
      assert (c, s) in r;
    }
  }

  // ---------------------------------------------------------------------
  // The loop.
  // ---------------------------------------------------------------------

  // All that can ever be required.
  ghost function Universe(ds: set<Descriptor>, roots: set<Capability>): Requirements {
    (set c | c in roots :: (c, CompositionRoot))
      + (set d, c | d in ds && c in d.capabilityDependencies :: (c, Plugin(d.id)))
  }

  function Capabilities(required: Requirements): set<Capability> {
    set p | p in required :: p.0
  }

  function Members(descriptors: seq<Descriptor>): set<Descriptor> {
    set d | d in descriptors
  }

  predicate DistinctIds(descriptors: seq<Descriptor>) {
    forall i, j | 0 <= i < j < |descriptors| :: descriptors[i].id != descriptors[j].id
  }

  method FindSoleProvider(descriptors: seq<Descriptor>, c: Capability) returns (found: Option<Descriptor>)
    requires DistinctIds(descriptors)
    ensures found.Some? ==> SoleProvider(Members(descriptors), found.value, c)
    ensures found.None? ==> forall d :: !SoleProvider(Members(descriptors), d, c)
  {
    var first: Option<nat> := Option.None;
    var i := 0;
    while i < |descriptors|
      invariant 0 <= i <= |descriptors|
      invariant first.Some? ==> first.value < i && Provides(descriptors[first.value], c)
      invariant forall j | 0 <= j < i && Provides(descriptors[j], c) :: first == Option.Some(j)
    {
      if Provides(descriptors[i], c) {
        if first.Some? {
          assert descriptors[first.value] in Members(descriptors) && descriptors[i] in Members(descriptors);
          return Option.None;
        }
        first := Option.Some(i);
      }
      i := i + 1;
    }
    if first.Some? {
      found := Option.Some(descriptors[first.value]);
    } else {
      found := Option.None;
    }
  }

  // Adds what the active plugins require.
  method RequireActive(descriptors: seq<Descriptor>, bindings: map<Capability, Binding>, required0: Requirements,
                       ghost roots: set<Capability>, ghost selected: map<Capability, Binding>)
      returns (required: Requirements, changed: bool)
    requires SoundBindings(Members(descriptors), selected, bindings)
    requires required0 <= Universe(Members(descriptors), roots)
    requires BelowEveryClosed(Members(descriptors), roots, selected, required0, bindings)
    ensures required0 <= required <= Universe(Members(descriptors), roots)
    ensures changed <==> required != required0
    ensures BelowEveryClosed(Members(descriptors), roots, selected, required, bindings)
    ensures forall d, c | d in descriptors && IsActive(d, bindings) && c in d.capabilityDependencies ::
              (c, Plugin(d.id)) in required
  {
    required, changed := required0, false;
    ghost var ds := Members(descriptors);
    for i := 0 to |descriptors|
      invariant required0 <= required <= Universe(ds, roots)
      invariant changed <==> required != required0
      invariant BelowEveryClosed(ds, roots, selected, required, bindings)
      invariant forall j, c | 0 <= j < i && IsActive(descriptors[j], bindings)
          && c in descriptors[j].capabilityDependencies ::
                  (c, Plugin(descriptors[j].id)) in required
    {
      var descriptor := descriptors[i];
      if IsActive(descriptor, bindings) {
        var rest := descriptor.capabilityDependencies;
        while rest != {}
          invariant rest <= descriptor.capabilityDependencies
          invariant required0 <= required <= Universe(ds, roots)
          invariant changed <==> required != required0
          invariant BelowEveryClosed(ds, roots, selected, required, bindings)
          invariant forall j, c | 0 <= j < i && IsActive(descriptors[j], bindings)
              && c in descriptors[j].capabilityDependencies ::
                      (c, Plugin(descriptors[j].id)) in required
          invariant forall c | c in descriptor.capabilityDependencies - rest :: (c, Plugin(descriptor.id)) in required
          decreases rest
        {
          var capability := Least(rest);
          rest := rest - {capability};
          RequireStep(ds, roots, selected, required, bindings, descriptor, capability);
          var entry := (capability, Plugin(descriptor.id));
          changed := changed || entry !in required;
          required := required + {entry};
        }
      }
    }
  }

  // Binds every required capability that has a sole provider.
  method BindSole(descriptors: seq<Descriptor>, required: Requirements, bindings0: map<Capability, Binding>,
                  selected: map<Capability, Binding>, ghost roots: set<Capability>)
      returns (bindings: map<Capability, Binding>, changed: bool)
    requires DistinctIds(descriptors)
    requires SoundBindings(Members(descriptors), selected, bindings0) && selected.Keys <= bindings0.Keys
    requires BelowEveryClosed(Members(descriptors), roots, selected, required, bindings0)
    ensures SoundBindings(Members(descriptors), selected, bindings)
    ensures BelowEveryClosed(Members(descriptors), roots, selected, required, bindings)
    ensures bindings0.Keys <= bindings.Keys <= bindings0.Keys + Capabilities(required)
    ensures !changed ==> bindings == bindings0
    ensures changed ==> bindings0.Keys < bindings.Keys
    ensures forall d, c | Required(required, c) && c !in selected && SoleProvider(Members(descriptors), d, c) ::
        c in bindings
  {
    bindings, changed := bindings0, false;
    ghost var ds := Members(descriptors);
    var rest := set p | p in required :: p.0;
    while rest != {}
      invariant rest <= Capabilities(required)
      invariant SoundBindings(ds, selected, bindings) && selected.Keys <= bindings.Keys
      invariant BelowEveryClosed(ds, roots, selected, required, bindings)
      invariant bindings0.Keys <= bindings.Keys <= bindings0.Keys + Capabilities(required)
      invariant !changed ==> bindings == bindings0
      invariant changed ==> bindings0.Keys < bindings.Keys
      invariant forall d, c | Required(required, c) && c !in rest && c !in selected && SoleProvider(ds, d, c) ::
          c in bindings
      decreases rest
    {
      var capability := Least(rest);
      rest := rest - {capability};
      if capability !in selected && capability !in bindings {
        var found := FindSoleProvider(descriptors, capability);
        if found.Some? {
          assert Required(required, capability) by {
            var p :| p in required && p.0 == capability;
            assert (capability, p.1) in required;
          }
          BindStep(ds, roots, selected, required, bindings, found.value, capability);
          bindings := bindings[capability := BindingOf(found.value)];
          changed := true;
        }
      }
    }
  }

  /** The selection loop computes the least fixpoint, and stops. */
  method SelectCapabilities(descriptors: seq<Descriptor>, roots: set<Capability>, selected: map<Capability, Binding>)
      returns (required: Requirements, bindings: map<Capability, Binding>)
    requires DistinctIds(descriptors)
    ensures LeastSelection(Members(descriptors), roots, selected, required, bindings)
  {
    ghost var ds := Members(descriptors);
    bindings := selected;
    required := set c | c in roots :: (c, CompositionRoot);
    var changed := true;
    while changed
      invariant required <= Universe(ds, roots)
      invariant selected.Keys <= bindings.Keys <= selected.Keys + Capabilities(Universe(ds, roots))
      invariant SoundBindings(ds, selected, bindings)
      invariant BelowEveryClosed(ds, roots, selected, required, bindings)
      invariant forall c | c in roots :: (c, CompositionRoot) in required
      invariant !changed ==> ClosedSelection(ds, roots, selected, required, bindings)
      decreases Universe(ds, roots) - required, selected.Keys + Capabilities(Universe(ds, roots)) - bindings.Keys,
          changed
    {
      var requiredMore, boundMore;
      required, requiredMore := RequireActive(descriptors, bindings, required, roots, selected);
      bindings, boundMore := BindSole(descriptors, required, bindings, selected, roots);
      changed := requiredMore || boundMore;
    }
  }

  // ---------------------------------------------------------------------
  // Finishing a registrar.
  // ---------------------------------------------------------------------

  datatype CompositionError =
    | DuplicatePlugin
    | DuplicateProviderCandidate
    | MissingDependency
    | ExactDependencyOnProvider
    | DependencyCycle(plugins: seq<PluginId>)
    | ConflictingSelection
    | UnknownProvider
    | MissingCapability(capability: Capability, requiredBy: set<Source>)
    | AmbiguousCapability(capability: Capability, candidates: set<Binding>)

  datatype Composition =
    | Composed(order: seq<nat>, bindings: map<Capability, Binding>)
    | Refused(error: CompositionError)

  predicate DistinctCandidates(descriptors: seq<Descriptor>) {
    forall i, j | 0 <= i < j < |descriptors| && descriptors[i].provider.Some? ::
      descriptors[i].provider != descriptors[j].provider
  }

  function Ids(descriptors: seq<Descriptor>): set<PluginId> {
    set i | 0 <= i < |descriptors| :: descriptors[i].id
  }

  predicate KnownDependencies(descriptors: seq<Descriptor>) {
    forall i | 0 <= i < |descriptors| :: descriptors[i].dependencies <= Ids(descriptors)
  }

  // No plugin names a provider plugin as a plugin dependency.
  predicate DependsOnNoProvider(descriptors: seq<Descriptor>) {
    forall i, j | 0 <= i < |descriptors| && 0 <= j < |descriptors|
        && descriptors[j].id in descriptors[i].dependencies ::
      descriptors[j].provider.None?
  }

  type Selection = (Capability, string)

  predicate ConsistentSelections(selections: seq<Selection>) {
    forall i, j | 0 <= i < j < |selections| && selections[i].0 == selections[j].0 ::
      selections[i].1 == selections[j].1
  }

  predicate Offers(d: Descriptor, selection: Selection) {
    d.provider == Option.Some(Candidate(selection.0, selection.1))
  }

  predicate IsOffered(descriptors: seq<Descriptor>, selection: Selection) {
    exists d | d in descriptors :: Offers(d, selection)
  }

  predicate KnownSelections(descriptors: seq<Descriptor>, selections: seq<Selection>) {
    forall i | 0 <= i < |selections| :: IsOffered(descriptors, selections[i])
  }

  // The binding of every selected capability is the selected candidate.
  ghost predicate SelectedBindings(descriptors: seq<Descriptor>, selections: seq<Selection>,
                                   selected: map<Capability, Binding>) {
    && (forall i | 0 <= i < |selections| :: selections[i].0 in selected)
    && (forall c | c in selected :: exists d, s | d in descriptors && s in selections ::
          s.0 == c && Offers(d, s) && selected[c] == BindingOf(d))
  }

  function AllIndices(descriptors: seq<Descriptor>): (m: map<PluginId, seq<nat>>)
    requires DistinctIds(descriptors)
    ensures m.Keys == Ids(descriptors) && forall p | p in m :: m[p] != []
  {
    map i | 0 <= i < |descriptors| :: descriptors[i].id := [i]
  }

  function ExactGraph(descriptors: seq<Descriptor>): (g: Graph)
    requires DistinctIds(descriptors)
    ensures g.Keys == Ids(descriptors)
  {
    map i | 0 <= i < |descriptors| :: descriptors[i].id := descriptors[i].dependencies
  }

  function ActiveIds(descriptors: seq<Descriptor>, bindings: map<Capability, Binding>): set<PluginId> {
    set i | 0 <= i < |descriptors| && IsActive(descriptors[i], bindings) :: descriptors[i].id
  }

  // The providers bound to what a plugin requires or may use.
  function BoundProviders(d: Descriptor, bindings: map<Capability, Binding>): set<PluginId> {
    set c | c in d.capabilityDependencies + d.optionalCapabilityDependencies && c in bindings :: bindings[c].owner
  }

  function ActiveGraph(descriptors: seq<Descriptor>, bindings: map<Capability, Binding>): (g: Graph)
    requires DistinctIds(descriptors)
    ensures g.Keys == ActiveIds(descriptors, bindings)
  {
    map i | 0 <= i < |descriptors| && IsActive(descriptors[i], bindings) ::
      descriptors[i].id := descriptors[i].dependencies * ActiveIds(descriptors, bindings)
        + BoundProviders(descriptors[i], bindings)
  }

  function Indices(descriptors: seq<Descriptor>, bindings: map<Capability, Binding>): (m: map<PluginId, seq<nat>>)
    requires DistinctIds(descriptors)
    ensures m.Keys == ActiveIds(descriptors, bindings) && forall p | p in m :: m[p] != []
  {
    map i | 0 <= i < |descriptors| && IsActive(descriptors[i], bindings) :: descriptors[i].id := [i]
  }

  // What a registrar refuses before it looks at capabilities.
  ghost predicate WellFormed(descriptors: seq<Descriptor>, selections: seq<Selection>) {
    && DistinctIds(descriptors) && DistinctCandidates(descriptors)
    && KnownDependencies(descriptors) && DependsOnNoProvider(descriptors)
    && Acyclic(ExactGraph(descriptors))
    && ConsistentSelections(selections) && KnownSelections(descriptors, selections)
  }

  lemma ExactGraphClosed(descriptors: seq<Descriptor>)
    requires DistinctIds(descriptors) && KnownDependencies(descriptors)
    ensures Closed(ExactGraph(descriptors))
  {
    var g := ExactGraph(descriptors);
    forall n, m | n in g && m in g[n] ensures m in g {
      var i :| 0 <= i < |descriptors| && descriptors[i].id == n;
      assert m in Ids(descriptors);
    }
  }

  // Every bound owner is a submitted, active plugin.
  lemma OwnersActive(descriptors: seq<Descriptor>, selections: seq<Selection>, selected: map<Capability, Binding>,
                     bindings: map<Capability, Binding>, c: Capability)
    requires SelectedBindings(descriptors, selections, selected)
    requires SoundBindings(Members(descriptors), selected, bindings) && c in bindings
    ensures exists d | d in descriptors :: Provides(d, c) && bindings[c] == BindingOf(d) && IsActive(d, bindings)
    ensures bindings[c].owner in ActiveIds(descriptors, bindings)
  {
    var owner: Descriptor;
    if c in selected {
      var d, s :| d in descriptors && s in selections && s.0 == c && Offers(d, s) && selected[c] == BindingOf(d);
      owner := d;
    } else {
      owner :| SoleProvider(Members(descriptors), owner, c) && bindings[c] == BindingOf(owner);
    }
    assert owner in descriptors && Provides(owner, c) && bindings[c] == BindingOf(owner);
    assert IsActive(owner, bindings);
  }

  lemma ActiveGraphClosed(descriptors: seq<Descriptor>, selections: seq<Selection>, selected: map<Capability, Binding>,
                          bindings: map<Capability, Binding>)
    requires DistinctIds(descriptors) && SelectedBindings(descriptors, selections, selected)
    requires SoundBindings(Members(descriptors), selected, bindings)
    ensures Closed(ActiveGraph(descriptors, bindings))
  {
    var g := ActiveGraph(descriptors, bindings);
    forall n, m | n in g && m in g[n] ensures m in g {
      var i :| 0 <= i < |descriptors| && IsActive(descriptors[i], bindings) && descriptors[i].id == n;
      ActiveGraphAt(descriptors, bindings, i);
      hide ActiveGraph, ActiveIds, IsActive, SoundBindings, SelectedBindings;
      if m in BoundProviders(descriptors[i], bindings) {
        var c :| c in descriptors[i].capabilityDependencies + descriptors[i].optionalCapabilityDependencies
          && c in bindings && bindings[c].owner == m;
        OwnersActive(descriptors, selections, selected, bindings, c);
      }
    }
  }

  // ----- the errors of the selection itself -----

  predicate HasProvider(descriptors: seq<Descriptor>, c: Capability) {
    exists d | d in descriptors :: Provides(d, c)
  }

  function RequiredBy(required: Requirements, c: Capability): set<Source> {
    set r | r in required && r.0 == c :: r.1
  }

  function CandidatesOf(descriptors: seq<Descriptor>, c: Capability): set<Binding> {
    set d | d in descriptors && Provides(d, c) :: BindingOf(d)
  }

  // Why a well-formed set of plugins has no composition, given its least selection: the least required capability
  // without
  // provider, else the least one with several, else the least cycle of the active plugins.
  ghost predicate StuckBy(descriptors: seq<Descriptor>, required: Requirements, bindings: map<Capability, Binding>,
                          e: CompositionError) {
    var unbound := Capabilities(required) - bindings.Keys;
    match e
    case MissingCapability(c, requiredBy) =>
      && c in unbound && !HasProvider(descriptors, c) && requiredBy == RequiredBy(required, c)
      && forall b | b in unbound && b < c :: HasProvider(descriptors, b)
    case AmbiguousCapability(c, candidates) =>
      && c in unbound && candidates == CandidatesOf(descriptors, c)
      && forall b | b in unbound :: c <= b && SeveralProviders(descriptors, b)
    case DependencyCycle(plugins) =>
      unbound == {} && DistinctIds(descriptors) && LeastCyclicComponent(ActiveGraph(descriptors, bindings), plugins)
    case _ => false
  }

  // The least capability of a set that no plugin provides.
  method FirstUnprovided(descriptors: seq<Descriptor>, capabilities: set<Capability>) returns (r: Option<Capability>)
    ensures r.None? ==> forall c | c in capabilities :: HasProvider(descriptors, c)
    ensures r.Some? ==> r.value in capabilities && !HasProvider(descriptors, r.value)
    ensures r.Some? ==> forall c | c in capabilities && c < r.value :: HasProvider(descriptors, c)
  {
    var rest := capabilities;
    while rest != {}
      invariant rest <= capabilities
      invariant forall c | c in capabilities && c !in rest :: HasProvider(descriptors, c)
      decreases rest
    {
      var c := Least(rest);
      if !HasProvider(descriptors, c) {
        return Option.Some(c);
      }
      rest := rest - {c};
    }
    r := Option.None;
  }

  // A required capability left unbound by the fixpoint has no provider or several.
  lemma UnboundHasNoSoleProvider(ds: set<Descriptor>, roots: set<Capability>, selected: map<Capability, Binding>,
                                 required: Requirements, bindings: map<Capability, Binding>, c: Capability,
                                     d: Descriptor)
    requires ClosedSelection(ds, roots, selected, required, bindings)
    requires c in Capabilities(required) && c !in bindings && d in ds && Provides(d, c)
    ensures exists e :: e in ds && e != d && Provides(e, c)
  {
    var p :| p in required && p.0 == c;
    assert (c, p.1) in required;
    assert Required(required, c);
    if !exists e :: e in ds && e != d && Provides(e, c) {
      assert SoleProvider(ds, d, c);
    }
  }

  method ResolveSelections(descriptors: seq<Descriptor>, selections: seq<Selection>)
      returns (selected: map<Capability, Binding>)
    requires KnownSelections(descriptors, selections)
    ensures SelectedBindings(descriptors, selections, selected)
  {
    selected := map[];
    for i := 0 to |selections|
      invariant SelectedBindings(descriptors, selections[..i], selected)
    {
      var j := 0;
      ghost var offer :| offer in descriptors && Offers(offer, selections[i]);
      ghost var k :| 0 <= k < |descriptors| && descriptors[k] == offer;
      while !Offers(descriptors[j], selections[i])
        invariant 0 <= j <= k
        decreases k - j
      {
        j := j + 1;
      }
      SelectedStep(descriptors, selections, selected, i, descriptors[j]);
      selected := selected[selections[i].0 := BindingOf(descriptors[j])];
    }
    assert selections[..|selections|] == selections;
  }

  lemma SelectedStep(descriptors: seq<Descriptor>, selections: seq<Selection>, selected: map<Capability, Binding>,
                     i: nat, d: Descriptor)
    requires i < |selections| && SelectedBindings(descriptors, selections[..i], selected)
    requires d in descriptors && Offers(d, selections[i])
    ensures SelectedBindings(descriptors, selections[..i + 1], selected[selections[i].0 := BindingOf(d)])
  {
    var next := selected[selections[i].0 := BindingOf(d)];
    var s := selections[..i + 1];
    assert s == selections[..i] + [selections[i]];
    forall c | c in next
      ensures exists e, t | e in descriptors && t in s :: t.0 == c && Offers(e, t) && next[c] == BindingOf(e)
    {
      if c == selections[i].0 {
        assert selections[i] in s && Offers(d, selections[i]);
      } else {
        var e, t :| e in descriptors && t in selections[..i] && t.0 == c && Offers(e, t) && selected[c] == BindingOf(e);
        assert t in s;
      }
    }
  }

  // The binding of a selected capability is determined by the selections.
  lemma SelectedAgree(descriptors: seq<Descriptor>, selections: seq<Selection>,
                      a: map<Capability, Binding>, b: map<Capability, Binding>, c: Capability)
    requires DistinctCandidates(descriptors) && ConsistentSelections(selections)
    requires SelectedBindings(descriptors, selections, a) && SelectedBindings(descriptors, selections, b) && c in a
    ensures c in b && a[c] == b[c]
  {
    hide DistinctCandidates, ConsistentSelections;
    var d, s :| d in descriptors && s in selections && s.0 == c && Offers(d, s) && a[c] == BindingOf(d);
    assert c in b;
    var e, t :| e in descriptors && t in selections && t.0 == c && Offers(e, t) && b[c] == BindingOf(e);
    SameOffer(descriptors, selections, d, s, e, t);
  }

  lemma SameOffer(descriptors: seq<Descriptor>, selections: seq<Selection>, d: Descriptor, s: Selection, e: Descriptor,
                  t: Selection)
    requires DistinctCandidates(descriptors) && ConsistentSelections(selections)
    requires d in descriptors && s in selections && Offers(d, s)
    requires e in descriptors && t in selections && Offers(e, t) && s.0 == t.0
    ensures d == e
  {
    assert s.1 == t.1;
    assert d.provider == e.provider;
  }

  lemma SelectedUnique(descriptors: seq<Descriptor>, selections: seq<Selection>,
                       a: map<Capability, Binding>, b: map<Capability, Binding>)
    requires DistinctCandidates(descriptors) && ConsistentSelections(selections)
    requires SelectedBindings(descriptors, selections, a) && SelectedBindings(descriptors, selections, b)
    ensures a == b
  {
    hide *;
    forall c | c in a ensures c in b && a[c] == b[c] {
      SelectedAgree(descriptors, selections, a, b, c);
    }
    forall c | c in b ensures c in a {
      SelectedAgree(descriptors, selections, b, a, c);
    }
  }

  // A set of plugins that can be composed, with everything the composition is made of.
  ghost predicate Composes(descriptors: seq<Descriptor>, roots: set<Capability>, selections: seq<Selection>,
                           selected: map<Capability, Binding>, required: Requirements,
                               bindings: map<Capability, Binding>) {
    && WellFormed(descriptors, selections)
    && SelectedBindings(descriptors, selections, selected)
    && LeastSelection(Members(descriptors), roots, selected, required, bindings)
    && Capabilities(required) <= bindings.Keys
    && Acyclic(ActiveGraph(descriptors, bindings))
  }

  ghost predicate Composable(descriptors: seq<Descriptor>, roots: set<Capability>, selections: seq<Selection>) {
    exists selected, required, bindings :: Composes(descriptors, roots, selections, selected, required, bindings)
  }

  // The selection is unique, so one failing candidate refutes all.
  lemma NotComposable(descriptors: seq<Descriptor>, roots: set<Capability>, selections: seq<Selection>,
                      selected: map<Capability, Binding>, required: Requirements, bindings: map<Capability, Binding>)
    requires WellFormed(descriptors, selections)
    requires SelectedBindings(descriptors, selections, selected)
    requires LeastSelection(Members(descriptors), roots, selected, required, bindings)
    requires !Composes(descriptors, roots, selections, selected, required, bindings)
    ensures !Composable(descriptors, roots, selections)
  {
    if Composable(descriptors, roots, selections) {
      var s, r, b :| Composes(descriptors, roots, selections, s, r, b);
      SelectedUnique(descriptors, selections, selected, s);
      SelectionUnique(Members(descriptors), roots, selected, required, bindings, r, b);
      assert false;
    }
  }

  // An activation order for the bound plugins.
  ghost predicate Activates(descriptors: seq<Descriptor>, bindings: map<Capability, Binding>, order: seq<nat>) {
    DistinctIds(descriptors)
    && exists ids :: LeastTopologicalOrder(ActiveGraph(descriptors, bindings), ids)
         && AtPositions(Indices(descriptors, bindings), ids, order)
  }

  lemma IllFormed(descriptors: seq<Descriptor>, roots: set<Capability>, selections: seq<Selection>)
    requires !WellFormed(descriptors, selections)
    ensures !Composable(descriptors, roots, selections)
  {
  }

  // The first check that fails, in the registrar's order.
  ghost predicate FailsCheck(descriptors: seq<Descriptor>, selections: seq<Selection>, e: CompositionError) {
    match e
    case DuplicatePlugin => !DistinctIds(descriptors)
    case DuplicateProviderCandidate => DistinctIds(descriptors) && !DistinctCandidates(descriptors)
    case MissingDependency => DistinctIds(descriptors) && DistinctCandidates(descriptors)
        && !KnownDependencies(descriptors)
    case ExactDependencyOnProvider => SoundIds(descriptors) && !DependsOnNoProvider(descriptors)
    case DependencyCycle(plugins) =>
      SoundIds(descriptors) && DependsOnNoProvider(descriptors)
      && LeastCyclicComponent(ExactGraph(descriptors), plugins)
    case ConflictingSelection => ExactlyResolved(descriptors) && !ConsistentSelections(selections)
    case UnknownProvider => ExactlyResolved(descriptors) && ConsistentSelections(selections)
        && !KnownSelections(descriptors, selections)
    case MissingCapability(_, _) => false
    case AmbiguousCapability(_, _) => false
  }

  predicate SoundIds(descriptors: seq<Descriptor>) {
    DistinctIds(descriptors) && DistinctCandidates(descriptors) && KnownDependencies(descriptors)
  }

  ghost predicate ExactlyResolved(descriptors: seq<Descriptor>) {
    SoundIds(descriptors) && DependsOnNoProvider(descriptors) && Acyclic(ExactGraph(descriptors))
  }

  // The checks before any capability is resolved.
  method Validate(descriptors: seq<Descriptor>, selections: seq<Selection>) returns (error: Option<CompositionError>)
    ensures error.None? <==> WellFormed(descriptors, selections)
    ensures error.Some? ==> FailsCheck(descriptors, selections, error.value)
  {
    hide Acyclic, LeastCyclicComponent, LeastTopologicalOrder, AtPositions, Closed;
    hide DistinctIds, DistinctCandidates, KnownDependencies, DependsOnNoProvider;
    hide ConsistentSelections, KnownSelections, ExactGraph, AllIndices, Ids;
    if !DistinctIds(descriptors) { return Option.Some(DuplicatePlugin); }
    if !DistinctCandidates(descriptors) { return Option.Some(DuplicateProviderCandidate); }
    if !KnownDependencies(descriptors) { return Option.Some(MissingDependency); }
    if !DependsOnNoProvider(descriptors) { return Option.Some(ExactDependencyOnProvider); }
    ExactGraphClosed(descriptors);
    var graph := ExactGraph(descriptors);
    var resolved := ResolveOrder(|graph|, AllIndices(descriptors), graph);
    if resolved.DependencyCycle? { return Option.Some(CompositionError.DependencyCycle(resolved.plugins)); }
    if !ConsistentSelections(selections) { return Option.Some(ConflictingSelection); }
    if !KnownSelections(descriptors, selections) { return Option.Some(UnknownProvider); }
    return Option.None;
  }

  lemma WellFormedParts(descriptors: seq<Descriptor>, selections: seq<Selection>)
    requires WellFormed(descriptors, selections)
    ensures DistinctIds(descriptors) && KnownSelections(descriptors, selections)
  {
  }

  // Two distinct plugins provide c.
  predicate SeveralProviders(descriptors: seq<Descriptor>, c: Capability) {
    exists d, e | d in descriptors && e in descriptors :: d != e && Provides(d, c) && Provides(e, c)
  }

  lemma UnboundIsAmbiguous(descriptors: seq<Descriptor>, roots: set<Capability>, selected: map<Capability, Binding>,
                           required: Requirements, bindings: map<Capability, Binding>, c: Capability)
    requires LeastSelection(Members(descriptors), roots, selected, required, bindings)
    requires c in Capabilities(required) - bindings.Keys && HasProvider(descriptors, c)
    ensures SeveralProviders(descriptors, c)
  {
    var d :| d in descriptors && Provides(d, c);
    UnboundHasNoSoleProvider(Members(descriptors), roots, selected, required, bindings, c, d);
  }

  lemma AllAmbiguous(descriptors: seq<Descriptor>, roots: set<Capability>, selected: map<Capability, Binding>,
                     required: Requirements, bindings: map<Capability, Binding>, least: Capability)
    requires LeastSelection(Members(descriptors), roots, selected, required, bindings)
    requires var unbound := Capabilities(required) - bindings.Keys;
      least in unbound && forall c | c in unbound :: least <= c && HasProvider(descriptors, c)
    ensures StuckBy(descriptors, required, bindings, AmbiguousCapability(least, CandidatesOf(descriptors, least)))
  {
    hide LeastSelection, SeveralProviders, HasProvider;
    forall c | c in Capabilities(required) - bindings.Keys ensures SeveralProviders(descriptors, c) {
      UnboundIsAmbiguous(descriptors, roots, selected, required, bindings, c);
    }
  }

  // A refusal names the failed check, or the least selection and what is wrong with it.
  ghost predicate RefusedBy(descriptors: seq<Descriptor>, roots: set<Capability>, selections: seq<Selection>,
                            e: CompositionError) {
    || FailsCheck(descriptors, selections, e)
    || (WellFormed(descriptors, selections) && exists selected, required, bindings ::
          SelectedBindings(descriptors, selections, selected)
          && LeastSelection(Members(descriptors), roots, selected, required, bindings)
          && StuckBy(descriptors, required, bindings, e))
  }

  lemma RefuseStuck(descriptors: seq<Descriptor>, roots: set<Capability>, selections: seq<Selection>,
                    selected: map<Capability, Binding>,
                    required: Requirements, bindings: map<Capability, Binding>, e: CompositionError)
    requires WellFormed(descriptors, selections) && SelectedBindings(descriptors, selections, selected)
    requires LeastSelection(Members(descriptors), roots, selected, required, bindings)
    requires StuckBy(descriptors, required, bindings, e)
    ensures RefusedBy(descriptors, roots, selections, e)
  {
  }

  lemma RefuseCheck(descriptors: seq<Descriptor>, roots: set<Capability>, selections: seq<Selection>,
                    e: CompositionError)
    requires FailsCheck(descriptors, selections, e)
    ensures RefusedBy(descriptors, roots, selections, e)
  {
  }

  lemma StuckMissing(descriptors: seq<Descriptor>, required: Requirements, bindings: map<Capability, Binding>,
                     c: Capability)
    requires c in Capabilities(required) - bindings.Keys && !HasProvider(descriptors, c)
    requires forall b | b in Capabilities(required) - bindings.Keys && b < c :: HasProvider(descriptors, b)
    ensures StuckBy(descriptors, required, bindings, MissingCapability(c, RequiredBy(required, c)))
  {
  }

  lemma StuckCycle(descriptors: seq<Descriptor>, required: Requirements, bindings: map<Capability, Binding>,
                   plugins: seq<PluginId>)
    requires DistinctIds(descriptors) && Capabilities(required) - bindings.Keys == {}
    requires LeastCyclicComponent(ActiveGraph(descriptors, bindings), plugins)
    ensures StuckBy(descriptors, required, bindings, CompositionError.DependencyCycle(plugins))
  {
  }

  lemma UnboundOrCyclic(descriptors: seq<Descriptor>, roots: set<Capability>, selections: seq<Selection>,
                        selected: map<Capability, Binding>, required: Requirements, bindings: map<Capability, Binding>)
    requires DistinctIds(descriptors)
    requires !(Capabilities(required) <= bindings.Keys) || !Acyclic(ActiveGraph(descriptors, bindings))
    ensures !Composes(descriptors, roots, selections, selected, required, bindings)
  {
  }

  lemma LeastIsSound(ds: set<Descriptor>, roots: set<Capability>, selected: map<Capability, Binding>,
                     required: Requirements, bindings: map<Capability, Binding>)
    requires LeastSelection(ds, roots, selected, required, bindings)
    ensures SoundBindings(ds, selected, bindings)
  {
  }

  lemma ComposesIntro(descriptors: seq<Descriptor>, roots: set<Capability>, selections: seq<Selection>,
                      selected: map<Capability, Binding>, required: Requirements, bindings: map<Capability, Binding>,
                          order: seq<nat>)
    requires WellFormed(descriptors, selections) && DistinctIds(descriptors)
    requires SelectedBindings(descriptors, selections, selected)
    requires LeastSelection(Members(descriptors), roots, selected, required, bindings)
    requires Capabilities(required) - bindings.Keys == {} && Acyclic(ActiveGraph(descriptors, bindings))
    requires exists ids :: LeastTopologicalOrder(ActiveGraph(descriptors, bindings), ids)
                             && AtPositions(Indices(descriptors, bindings), ids, order)
    ensures Composes(descriptors, roots, selections, selected, required, bindings)
    ensures Composable(descriptors, roots, selections) && Activates(descriptors, bindings, order)
  {
    assert Capabilities(required) <= (Capabilities(required) - bindings.Keys) + bindings.Keys;
    assert Composes(descriptors, roots, selections, selected, required, bindings);
  }

  /** Composition succeeds exactly for a composable set of plugins; the order is then the least
      topological order of the active plugins. A refusal names the first failed check, or the least
      selection is stuck on what it names. */
  method Finish(descriptors: seq<Descriptor>, roots: set<Capability>,
                selections: seq<Selection>) returns (r: Composition)
    ensures r.Composed? <==> Composable(descriptors, roots, selections)
    ensures r.Composed? ==> Activates(descriptors, r.bindings, r.order)
    ensures r.Composed? ==> exists selected, required ::
        Composes(descriptors, roots, selections, selected, required, r.bindings)
    ensures r.Refused? ==> RefusedBy(descriptors, roots, selections, r.error)
  {
    hide *;
    var error := Validate(descriptors, selections);
    if error.Some? {
      IllFormed(descriptors, roots, selections);
      RefuseCheck(descriptors, roots, selections, error.value);
      return Refused(error.value);
    }
    WellFormedParts(descriptors, selections);
    var selected := ResolveSelections(descriptors, selections);
    var required, bindings := SelectCapabilities(descriptors, roots, selected);
    var unbound := Capabilities(required) - bindings.Keys;
    if unbound != {} {
      UnboundOrCyclic(descriptors, roots, selections, selected, required, bindings);
      NotComposable(descriptors, roots, selections, selected, required, bindings);
      var missing := FirstUnprovided(descriptors, unbound);
      if missing.Some? {
        StuckMissing(descriptors, required, bindings, missing.value);
        var lacking := MissingCapability(missing.value, RequiredBy(required, missing.value));
        RefuseStuck(descriptors, roots, selections, selected, required, bindings, lacking);
        return Refused(lacking);
      }
      var c := Least(unbound);
      AllAmbiguous(descriptors, roots, selected, required, bindings, c);
      var unclear := AmbiguousCapability(c, CandidatesOf(descriptors, c));
      RefuseStuck(descriptors, roots, selections, selected, required, bindings, unclear);
      return Refused(unclear);
    }
    LeastIsSound(Members(descriptors), roots, selected, required, bindings);
    ActiveGraphClosed(descriptors, selections, selected, bindings);
    var graph := ActiveGraph(descriptors, bindings);
    var resolved := ResolveOrder(|graph|, Indices(descriptors, bindings), graph);
    if resolved.DependencyCycle? {
      UnboundOrCyclic(descriptors, roots, selections, selected, required, bindings);
      NotComposable(descriptors, roots, selections, selected, required, bindings);
      StuckCycle(descriptors, required, bindings, resolved.plugins);
      RefuseStuck(descriptors, roots, selections, selected, required, bindings,
                  CompositionError.DependencyCycle(resolved.plugins));
      return Refused(CompositionError.DependencyCycle(resolved.plugins));
    }
    ComposesIntro(descriptors, roots, selections, selected, required, bindings, resolved.order);
    return Composed(resolved.order, bindings);
  }

  // At position k of the order, d.
  ghost predicate ActivatedAt(descriptors: seq<Descriptor>, order: seq<nat>, k: nat, d: Descriptor) {
    k < |order| && order[k] < |descriptors| && descriptors[order[k]] == d
  }

  // The plugin bound to c provides it and stands before position i of the order.
  ghost predicate ProviderActivatedBefore(descriptors: seq<Descriptor>, bindings: map<Capability, Binding>,
                                          order: seq<nat>,
                                          c: Capability, i: nat)
    requires c in bindings
  {
    exists k: nat, d :: k < i && ActivatedAt(descriptors, order, k, d) && Provides(d, c) && bindings[c] == BindingOf(d)
  }

  lemma PositionInOrder(descriptors: seq<Descriptor>, bindings: map<Capability, Binding>, ids: seq<PluginId>,
                        order: seq<nat>,
                        k: nat, d: Descriptor)
    requires DistinctIds(descriptors) && AtPositions(Indices(descriptors, bindings), ids, order)
    requires k < |ids| && d in descriptors && d.id == ids[k]
    ensures ActivatedAt(descriptors, order, k, d)
  {
    var i :| 0 <= i < |descriptors| && IsActive(descriptors[i], bindings) && descriptors[i].id == ids[k];
    var j :| 0 <= j < |descriptors| && descriptors[j] == d;
    assert i == j;
  }

  /** In a composition every capability required by the root or by an active plugin is bound to
      an active plugin that provides it and that is activated before the plugin requiring it. */
  lemma ProvidersFirst(descriptors: seq<Descriptor>, roots: set<Capability>, selections: seq<Selection>,
                       selected: map<Capability, Binding>, required: Requirements, bindings: map<Capability, Binding>,
                           order: seq<nat>)
    requires Composes(descriptors, roots, selections, selected, required, bindings)
    requires Activates(descriptors, bindings, order)
    ensures forall c | c in roots :: c in bindings && ProviderActivatedBefore(descriptors, bindings, order, c, |order|)
    ensures forall i, c | 0 <= i < |order| && order[i] < |descriptors|
        && c in descriptors[order[i]].capabilityDependencies ::
              c in bindings && ProviderActivatedBefore(descriptors, bindings, order, c, i)
    ensures forall d | d in descriptors && IsActive(d, bindings) :: exists k :: ActivatedAt(descriptors, order, k, d)
  {
    hide *;
    var ids := OrderOf(descriptors, bindings, order);
    forall d | d in descriptors && IsActive(d, bindings) ensures exists k :: ActivatedAt(descriptors, order, k, d) {
      var k := PlaceOf(descriptors, bindings, ids, order, d);
    }
    forall c | c in roots
      ensures c in bindings && ProviderActivatedBefore(descriptors, bindings, order, c, |order|)
    {
      RootBound(descriptors, roots, selections, selected, required, bindings, c);
      var d := OwnerOf(descriptors, selections, selected, bindings, c);
      var k := PlaceOf(descriptors, bindings, ids, order, d);
      ActivatedBefore(descriptors, bindings, order, c, |order|, k, d);
    }
    forall i, c | 0 <= i < |order| && order[i] < |descriptors| && c in descriptors[order[i]].capabilityDependencies
      ensures c in bindings && ProviderActivatedBefore(descriptors, bindings, order, c, i)
    {
      ProviderBefore(descriptors, roots, selections, selected, required, bindings, ids, order, i, c);
    }
  }

  lemma OrderOf(descriptors: seq<Descriptor>, bindings: map<Capability, Binding>,
                order: seq<nat>) returns (ids: seq<PluginId>)
    requires Activates(descriptors, bindings, order)
    ensures DistinctIds(descriptors)
    ensures TopologicalOrder(ActiveGraph(descriptors, bindings), ids)
    ensures LeastTopologicalOrder(ActiveGraph(descriptors, bindings), ids)
    ensures AtPositions(Indices(descriptors, bindings), ids, order)
  {
    ids :| LeastTopologicalOrder(ActiveGraph(descriptors, bindings), ids)
      && AtPositions(Indices(descriptors, bindings), ids, order);
  }

  lemma PlaceOf(descriptors: seq<Descriptor>, bindings: map<Capability, Binding>, ids: seq<PluginId>, order: seq<nat>,
                d: Descriptor) returns (k: nat)
    requires DistinctIds(descriptors) && TopologicalOrder(ActiveGraph(descriptors, bindings), ids)
    requires AtPositions(Indices(descriptors, bindings), ids, order)
    requires d in descriptors && IsActive(d, bindings)
    ensures ActivatedAt(descriptors, order, k, d)
  {
    assert d.id in ActiveIds(descriptors, bindings);
    assert d.id in Elements(ids);
    k :| 0 <= k < |ids| && ids[k] == d.id;
    PositionInOrder(descriptors, bindings, ids, order, k, d);
  }

  lemma ActivatedBefore(descriptors: seq<Descriptor>, bindings: map<Capability, Binding>, order: seq<nat>,
                        c: Capability, i: nat, k: nat, d: Descriptor)
    requires c in bindings && ActivatedAt(descriptors, order, k, d) && (k < i || i == |order|)
    requires Provides(d, c) && bindings[c] == BindingOf(d)
    ensures ProviderActivatedBefore(descriptors, bindings, order, c, i)
  {
  }

  lemma OwnerOf(descriptors: seq<Descriptor>, selections: seq<Selection>, selected: map<Capability, Binding>,
                bindings: map<Capability, Binding>, c: Capability) returns (d: Descriptor)
    requires SelectedBindings(descriptors, selections, selected)
    requires SoundBindings(Members(descriptors), selected, bindings) && c in bindings
    ensures d in descriptors && Provides(d, c) && bindings[c] == BindingOf(d) && IsActive(d, bindings)
    ensures bindings[c].owner == d.id
  {
    OwnersActive(descriptors, selections, selected, bindings, c);
    d :| d in descriptors && Provides(d, c) && bindings[c] == BindingOf(d) && IsActive(d, bindings);
  }

  lemma RootBound(descriptors: seq<Descriptor>, roots: set<Capability>, selections: seq<Selection>,
                  selected: map<Capability, Binding>, required: Requirements, bindings: map<Capability, Binding>,
                      c: Capability)
    requires Composes(descriptors, roots, selections, selected, required, bindings) && c in roots
    ensures c in bindings && SelectedBindings(descriptors, selections, selected)
    ensures SoundBindings(Members(descriptors), selected, bindings)
  {
    assert (c, CompositionRoot) in required;
  }

  // What an active plugin requires is bound, and is one of its edges.
  lemma RequirementBound(descriptors: seq<Descriptor>, roots: set<Capability>, selections: seq<Selection>,
                         selected: map<Capability, Binding>, required: Requirements, bindings: map<Capability, Binding>,
                         i: nat, c: Capability)
    requires Composes(descriptors, roots, selections, selected, required, bindings)
    requires i < |descriptors| && IsActive(descriptors[i], bindings) && c in descriptors[i].capabilityDependencies
    ensures SelectedBindings(descriptors, selections, selected)
    ensures SoundBindings(Members(descriptors), selected, bindings)
    ensures c in bindings && descriptors[i].id in ActiveGraph(descriptors, bindings)
    ensures bindings[c].owner in ActiveGraph(descriptors, bindings)[descriptors[i].id]
  {
    assert (c, Plugin(descriptors[i].id)) in required;
    assert c in bindings;
    assert bindings[c].owner in BoundProviders(descriptors[i], bindings);
  }

  lemma ProviderBefore(descriptors: seq<Descriptor>, roots: set<Capability>, selections: seq<Selection>,
                       selected: map<Capability, Binding>, required: Requirements, bindings: map<Capability, Binding>,
                       ids: seq<PluginId>, order: seq<nat>, i: nat, c: Capability)
    requires Composes(descriptors, roots, selections, selected, required, bindings)
    requires DistinctIds(descriptors) && TopologicalOrder(ActiveGraph(descriptors, bindings), ids)
    requires AtPositions(Indices(descriptors, bindings), ids, order)
    requires |ids| == |order| && i < |order| && order[i] < |descriptors|
    requires c in descriptors[order[i]].capabilityDependencies
    ensures c in bindings && ProviderActivatedBefore(descriptors, bindings, order, c, i)
  {
    assert ids[i] in Indices(descriptors, bindings);
    assert IsActive(descriptors[order[i]], bindings) && descriptors[order[i]].id == ids[i];
    hide *;
    RequirementBound(descriptors, roots, selections, selected, required, bindings, order[i], c);
    var d := OwnerOf(descriptors, selections, selected, bindings, c);
    var k := EarlierPlace(ActiveGraph(descriptors, bindings), ids, i, d.id);
    PositionInOrder(descriptors, bindings, ids, order, k, d);
    ActivatedBefore(descriptors, bindings, order, c, i, k, d);
  }

  lemma EarlierPlace(g: Graph, ids: seq<PluginId>, i: nat, d: PluginId) returns (k: nat)
    requires TopologicalOrder(g, ids) && i < |ids| && ids[i] in g && d in g[ids[i]]
    ensures k < i && ids[k] == d
  {
    assert d in ids[..i];
    k :| 0 <= k < i && ids[k] == d;
  }

  lemma ActiveGraphOfMembers(d1: seq<Descriptor>, d2: seq<Descriptor>, bindings: map<Capability, Binding>)
    requires DistinctIds(d1) && DistinctIds(d2) && Members(d1) == Members(d2)
    ensures ActiveGraph(d1, bindings) == ActiveGraph(d2, bindings)
  {
    hide *;
    SameActiveIds(d1, d2, bindings);
    SameActiveIds(d2, d1, bindings);
    forall p | p in ActiveIds(d1, bindings) ensures ActiveGraph(d1, bindings)[p] == ActiveGraph(d2, bindings)[p] {
      var i := ActiveIndex(d1, bindings, p);
      var j := MemberIndex(d1, d2, i);
      ActiveGraphAt(d1, bindings, i);
      ActiveGraphAt(d2, bindings, j);
    }
  }

  lemma ActiveIndex(descriptors: seq<Descriptor>, bindings: map<Capability, Binding>, p: PluginId) returns (i: nat)
    requires p in ActiveIds(descriptors, bindings)
    ensures i < |descriptors| && IsActive(descriptors[i], bindings) && descriptors[i].id == p
  {
    i :| 0 <= i < |descriptors| && IsActive(descriptors[i], bindings) && descriptors[i].id == p;
  }

  lemma MemberIndex(d1: seq<Descriptor>, d2: seq<Descriptor>, i: nat) returns (j: nat)
    requires Members(d1) == Members(d2) && i < |d1|
    ensures j < |d2| && d2[j] == d1[i]
  {
    assert d1[i] in Members(d2);
    j :| 0 <= j < |d2| && d2[j] == d1[i];
  }

  lemma ActiveGraphAt(descriptors: seq<Descriptor>, bindings: map<Capability, Binding>, i: nat)
    requires DistinctIds(descriptors) && i < |descriptors| && IsActive(descriptors[i], bindings)
    ensures descriptors[i].id in ActiveGraph(descriptors, bindings)
    ensures ActiveGraph(descriptors, bindings)[descriptors[i].id]
      == descriptors[i].dependencies * ActiveIds(descriptors, bindings) + BoundProviders(descriptors[i], bindings)
  {
  }

  lemma SameActiveIds(d1: seq<Descriptor>, d2: seq<Descriptor>, bindings: map<Capability, Binding>)
    requires Members(d1) == Members(d2)
    ensures ActiveIds(d1, bindings) <= ActiveIds(d2, bindings)
  {
    forall p | p in ActiveIds(d1, bindings) ensures p in ActiveIds(d2, bindings) {
      var i := ActiveIndex(d1, bindings, p);
      var j := MemberIndex(d1, d2, i);
    }
  }

  lemma SelectedOfMembers(d1: seq<Descriptor>, d2: seq<Descriptor>, selections: seq<Selection>,
                          selected: map<Capability, Binding>)
    requires Members(d1) == Members(d2) && SelectedBindings(d1, selections, selected)
    ensures SelectedBindings(d2, selections, selected)
  {
    forall c | c in selected
      ensures exists d, s | d in d2 && s in selections :: s.0 == c && Offers(d, s) && selected[c] == BindingOf(d)
    {
      var d, s :| d in d1 && s in selections && s.0 == c && Offers(d, s) && selected[c] == BindingOf(d);
      assert d in Members(d2);
    }
  }

  /** Two submissions of the same plugins that compose have the same requirements, bindings and sequence of plugin
      ids. */
  lemma CompositionUnique(d1: seq<Descriptor>, d2: seq<Descriptor>, roots: set<Capability>, selections: seq<Selection>,
                          s1: map<Capability, Binding>, r1: Requirements, b1: map<Capability, Binding>,
                              ids1: seq<PluginId>,
                          s2: map<Capability, Binding>, r2: Requirements, b2: map<Capability, Binding>,
                              ids2: seq<PluginId>)
    requires Members(d1) == Members(d2)
    requires Composes(d1, roots, selections, s1, r1, b1) && Composes(d2, roots, selections, s2, r2, b2)
    requires LeastTopologicalOrder(ActiveGraph(d1, b1), ids1) && LeastTopologicalOrder(ActiveGraph(d2, b2), ids2)
    ensures r1 == r2 && b1 == b2 && ids1 == ids2
  {
    SelectedOfMembers(d1, d2, selections, s1);
    SelectedUnique(d2, selections, s1, s2);
    SelectionUnique(Members(d1), roots, s1, r1, b1, r2, b2);
    ActiveGraphOfMembers(d1, d2, b1);
    LexAntisymmetric(ids1, ids2);
  }

  // ---------------------------------------------------------------------
  // Submitting the same plugins in another order.
  // ---------------------------------------------------------------------

  lemma TwoPlaces(s: seq<Descriptor>, x: Descriptor) returns (a: nat, b: nat)
    requires multiset(s)[x] >= 2
    ensures a < b < |s| && s[a] == x && s[b] == x
  {
    var i :| 0 <= i < |s| && s[i] == x;
    assert s == s[..i] + [x] + s[i + 1..];
    if x in s[..i] {
      a :| 0 <= a < |s[..i]| && s[..i][a] == x;
      b := i;
    } else {
      var j :| 0 <= j < |s[i + 1..]| && s[i + 1..][j] == x;
      a, b := i, i + 1 + j;
    }
  }

  lemma CountedTwice(s: seq<Descriptor>, i: nat, j: nat)
    requires i < j < |s| && s[i] == s[j]
    ensures multiset(s)[s[i]] >= 2
  {
    assert s == s[..j] + s[j..];
    assert s[i] == s[..j][i] && s[j] == s[j..][0];
  }

  // Two places of one order are two places of the other.
  lemma PairIn(d1: seq<Descriptor>, d2: seq<Descriptor>, i: nat, j: nat) returns (a: nat, b: nat)
    requires multiset(d1) == multiset(d2) && i < j < |d2|
    ensures a < |d1| && b < |d1| && a != b && d1[a] == d2[i] && d1[b] == d2[j]
  {
    if d2[i] == d2[j] {
      CountedTwice(d2, i, j);
      a, b := TwoPlaces(d1, d2[i]);
    } else {
      assert d2[i] in multiset(d2) && d2[j] in multiset(d2);
      a :| 0 <= a < |d1| && d1[a] == d2[i];
      b :| 0 <= b < |d1| && d1[b] == d2[j];
    }
  }

  lemma SameMembers(d1: seq<Descriptor>, d2: seq<Descriptor>)
    requires multiset(d1) == multiset(d2)
    ensures Members(d1) == Members(d2)
  {
    forall d ensures d in Members(d1) <==> d in Members(d2) {
      assert d in multiset(d1) <==> d in multiset(d2);
    }
  }

  lemma DistinctPermuted(d1: seq<Descriptor>, d2: seq<Descriptor>)
    requires multiset(d1) == multiset(d2)
    ensures DistinctIds(d1) ==> DistinctIds(d2)
    ensures DistinctCandidates(d1) ==> DistinctCandidates(d2)
  {
    if DistinctIds(d1) {
      forall i, j | 0 <= i < j < |d2| ensures d2[i].id != d2[j].id {
        var a, b := PairIn(d1, d2, i, j);
        assert d1[a].id != d1[b].id by { assert a < b || b < a; }
      }
    }
    if DistinctCandidates(d1) {
      forall i, j | 0 <= i < j < |d2| && d2[i].provider.Some? ensures d2[i].provider != d2[j].provider {
        var a, b := PairIn(d1, d2, i, j);
        assert d1[a].provider != d1[b].provider by { assert a < b || b < a; }
      }
    }
  }

  lemma IdsOfMembers(d1: seq<Descriptor>, d2: seq<Descriptor>)
    requires Members(d1) == Members(d2)
    ensures Ids(d1) <= Ids(d2)
  {
    forall p | p in Ids(d1) ensures p in Ids(d2) {
      var i := IdIndex(d1, p);
      var j := MemberIndex(d1, d2, i);
    }
  }

  lemma DependenciesOfMembers(d1: seq<Descriptor>, d2: seq<Descriptor>)
    requires Members(d1) == Members(d2)
    ensures KnownDependencies(d1) ==> KnownDependencies(d2)
    ensures DependsOnNoProvider(d1) ==> DependsOnNoProvider(d2)
  {
    IdsOfMembers(d1, d2);
    hide Ids;
    if KnownDependencies(d1) {
      forall i | 0 <= i < |d2| ensures d2[i].dependencies <= Ids(d2) {
        var a := MemberIndex(d2, d1, i);
      }
    }
    if DependsOnNoProvider(d1) {
      forall i, j | 0 <= i < |d2| && 0 <= j < |d2| && d2[j].id in d2[i].dependencies ensures d2[j].provider.None? {
        var a := MemberIndex(d2, d1, i);
        var b := MemberIndex(d2, d1, j);
        assert d1[b].id in d1[a].dependencies;
      }
    }
  }

  lemma ExactGraphOfMembers(d1: seq<Descriptor>, d2: seq<Descriptor>)
    requires DistinctIds(d1) && DistinctIds(d2) && Members(d1) == Members(d2)
    ensures ExactGraph(d1) == ExactGraph(d2)
  {
    hide *;
    IdsOfMembers(d1, d2);
    IdsOfMembers(d2, d1);
    forall p | p in Ids(d1) ensures ExactGraph(d1)[p] == ExactGraph(d2)[p] {
      var i := IdIndex(d1, p);
      var j := MemberIndex(d1, d2, i);
      ExactGraphAt(d1, i);
      ExactGraphAt(d2, j);
    }
  }

  lemma IdIndex(descriptors: seq<Descriptor>, p: PluginId) returns (i: nat)
    requires p in Ids(descriptors)
    ensures i < |descriptors| && descriptors[i].id == p
  {
    i :| 0 <= i < |descriptors| && descriptors[i].id == p;
  }

  lemma ExactGraphAt(descriptors: seq<Descriptor>, i: nat)
    requires DistinctIds(descriptors) && i < |descriptors|
    ensures descriptors[i].id in ExactGraph(descriptors)
    ensures ExactGraph(descriptors)[descriptors[i].id] == descriptors[i].dependencies
  {
  }

  lemma SelectionsOfMembers(d1: seq<Descriptor>, d2: seq<Descriptor>, selections: seq<Selection>)
    requires Members(d1) == Members(d2) && KnownSelections(d1, selections)
    ensures KnownSelections(d2, selections)
  {
    hide Offers;
    forall i | 0 <= i < |selections| ensures IsOffered(d2, selections[i]) {
      assert IsOffered(d1, selections[i]);
      var d :| d in d1 && Offers(d, selections[i]);
      assert d in Members(d2);
    }
  }

  lemma ProvidersOfMembers(d1: seq<Descriptor>, d2: seq<Descriptor>, c: Capability)
    requires Members(d1) == Members(d2)
    ensures HasProvider(d1, c) ==> HasProvider(d2, c)
    ensures SeveralProviders(d1, c) ==> SeveralProviders(d2, c)
  {
    if HasProvider(d1, c) {
      var d :| d in d1 && Provides(d, c);
      assert d in Members(d2);
    }
    if SeveralProviders(d1, c) {
      var d, e :| d in d1 && e in d1 && d != e && Provides(d, c) && Provides(e, c);
      assert d in Members(d2) && e in Members(d2);
    }
  }

  lemma CandidatesOfMembers(d1: seq<Descriptor>, d2: seq<Descriptor>, c: Capability)
    requires Members(d1) == Members(d2)
    ensures CandidatesOf(d1, c) <= CandidatesOf(d2, c)
  {
    forall b | b in CandidatesOf(d1, c) ensures b in CandidatesOf(d2, c) {
      var d :| d in d1 && Provides(d, c) && b == BindingOf(d);
      assert d in Members(d2);
    }
  }

  // The checks do not depend on the order.
  lemma ChecksPermuted(d1: seq<Descriptor>, d2: seq<Descriptor>, selections: seq<Selection>)
    requires multiset(d1) == multiset(d2)
    ensures Members(d1) == Members(d2) && (DistinctIds(d1) <==> DistinctIds(d2))
    ensures (DistinctCandidates(d1) <==> DistinctCandidates(d2))
    ensures (KnownDependencies(d1) <==> KnownDependencies(d2)) && (DependsOnNoProvider(d1) <==> DependsOnNoProvider(d2))
    ensures KnownSelections(d1, selections) <==> KnownSelections(d2, selections)
    ensures DistinctIds(d1) && DistinctIds(d2) ==> ExactGraph(d1) == ExactGraph(d2)
  {
    hide *;
    SameMembers(d1, d2);
    DistinctPermuted(d1, d2);
    DistinctPermuted(d2, d1);
    DependenciesOfMembers(d1, d2);
    DependenciesOfMembers(d2, d1);
    if KnownSelections(d1, selections) {
      SelectionsOfMembers(d1, d2, selections);
    }
    if KnownSelections(d2, selections) {
      SelectionsOfMembers(d2, d1, selections);
    }
    if DistinctIds(d1) && DistinctIds(d2) {
      ExactGraphOfMembers(d1, d2);
    }
  }

  lemma WellFormedPermuted(d1: seq<Descriptor>, d2: seq<Descriptor>, selections: seq<Selection>)
    requires multiset(d1) == multiset(d2) && WellFormed(d1, selections)
    ensures WellFormed(d2, selections)
  {
    ChecksPermuted(d1, d2, selections);
    hide DistinctIds, DistinctCandidates, KnownDependencies, DependsOnNoProvider, ExactGraph, Acyclic, KnownSelections,
      Members;
  }

  lemma ComposesPermuted(d1: seq<Descriptor>, d2: seq<Descriptor>, roots: set<Capability>, selections: seq<Selection>,
                         selected: map<Capability, Binding>, required: Requirements, bindings: map<Capability, Binding>)
    requires multiset(d1) == multiset(d2) && Composes(d1, roots, selections, selected, required, bindings)
    ensures Composes(d2, roots, selections, selected, required, bindings)
  {
    hide SelectedBindings, LeastSelection, Acyclic, ActiveGraph, Members;
    SameMembers(d1, d2);
    WellFormedPermuted(d1, d2, selections);
    WellFormedParts(d1, selections);
    WellFormedParts(d2, selections);
    hide WellFormed;
    SelectedOfMembers(d1, d2, selections, selected);
    ActiveGraphOfMembers(d1, d2, bindings);
  }

  lemma FailurePermuted(d1: seq<Descriptor>, d2: seq<Descriptor>, selections: seq<Selection>, e: CompositionError)
    requires multiset(d1) == multiset(d2) && FailsCheck(d1, selections, e)
    ensures FailsCheck(d2, selections, e)
  {
    ChecksPermuted(d1, d2, selections);
    hide DistinctIds, DistinctCandidates, KnownDependencies, DependsOnNoProvider, ExactGraph, Acyclic, KnownSelections,
      Members,
      LeastCyclicComponent, ConsistentSelections;
  }

  lemma StuckPermuted(d1: seq<Descriptor>, d2: seq<Descriptor>, required: Requirements,
                      bindings: map<Capability, Binding>, e: CompositionError)
    requires multiset(d1) == multiset(d2) && StuckBy(d1, required, bindings, e)
    ensures StuckBy(d2, required, bindings, e)
  {
    SameMembers(d1, d2);
    DistinctPermuted(d1, d2);
    hide DistinctIds, DistinctCandidates, HasProvider, SeveralProviders, CandidatesOf, Members, ActiveGraph,
      LeastCyclicComponent,
      Capabilities;
    forall c ensures HasProvider(d1, c) <==> HasProvider(d2, c) {
      ProvidersOfMembers(d1, d2, c);
      ProvidersOfMembers(d2, d1, c);
    }
    forall c ensures SeveralProviders(d1, c) ==> SeveralProviders(d2, c) {
      ProvidersOfMembers(d1, d2, c);
    }
    forall c ensures CandidatesOf(d1, c) == CandidatesOf(d2, c) {
      CandidatesOfMembers(d1, d2, c);
      CandidatesOfMembers(d2, d1, c);
    }
    if DistinctIds(d1) {
      ActiveGraphOfMembers(d1, d2, bindings);
    }
  }

  lemma RefusalPermuted(d1: seq<Descriptor>, d2: seq<Descriptor>, roots: set<Capability>, selections: seq<Selection>,
                        e: CompositionError)
    requires multiset(d1) == multiset(d2) && RefusedBy(d1, roots, selections, e)
    ensures RefusedBy(d2, roots, selections, e)
  {
    hide FailsCheck, WellFormed, SelectedBindings, LeastSelection, StuckBy, Members;
    if FailsCheck(d1, selections, e) {
      FailurePermuted(d1, d2, selections, e);
    } else {
      var selected, required, bindings :| SelectedBindings(d1, selections, selected)
        && LeastSelection(Members(d1), roots, selected, required, bindings) && StuckBy(d1, required, bindings, e);
      SameMembers(d1, d2);
      WellFormedPermuted(d1, d2, selections);
      SelectedOfMembers(d1, d2, selections, selected);
      StuckPermuted(d1, d2, required, bindings, e);
      RefuseStuck(d2, roots, selections, selected, required, bindings, e);
    }
  }

  /** The order in which plugins are submitted decides nothing: another order composes exactly when this one does,
      with the same selection, requirements and bindings, and is refused for exactly the same reasons. */
  lemma SubmissionOrderIrrelevant(d1: seq<Descriptor>, d2: seq<Descriptor>, roots: set<Capability>,
                                  selections: seq<Selection>)
    requires multiset(d1) == multiset(d2)
    ensures Composable(d1, roots, selections) <==> Composable(d2, roots, selections)
    ensures forall s, r, b :: Composes(d1, roots, selections, s, r, b) <==> Composes(d2, roots, selections, s, r, b)
    ensures forall e :: RefusedBy(d1, roots, selections, e) <==> RefusedBy(d2, roots, selections, e)
  {
    hide Composes, RefusedBy;
    forall s, r, b ensures Composes(d1, roots, selections, s, r, b) <==> Composes(d2, roots, selections, s, r, b) {
      if Composes(d1, roots, selections, s, r, b) {
        ComposesPermuted(d1, d2, roots, selections, s, r, b);
      }
      if Composes(d2, roots, selections, s, r, b) {
        ComposesPermuted(d2, d1, roots, selections, s, r, b);
      }
    }
    forall e ensures RefusedBy(d1, roots, selections, e) <==> RefusedBy(d2, roots, selections, e) {
      if RefusedBy(d1, roots, selections, e) {
        RefusalPermuted(d1, d2, roots, selections, e);
      }
      if RefusedBy(d2, roots, selections, e) {
        RefusalPermuted(d2, d1, roots, selections, e);
      }
    }
  }

  lemma OneIndex(descriptors: seq<Descriptor>, i: nat, j: nat)
    requires DistinctIds(descriptors) && i < |descriptors| && j < |descriptors|
    requires descriptors[i].id == descriptors[j].id
    ensures i == j
  {
    assert !(i < j) && !(j < i);
  }

  lemma PlacedAt(descriptors: seq<Descriptor>, bindings: map<Capability, Binding>, ids: seq<PluginId>, order: seq<nat>,
                 k: nat)
    requires DistinctIds(descriptors) && AtPositions(Indices(descriptors, bindings), ids, order) && k < |order|
    ensures order[k] < |descriptors| && descriptors[order[k]].id == ids[k]
  {
    assert ids[k] in ActiveIds(descriptors, bindings);
    var i := ActiveIndex(descriptors, bindings, ids[k]);
  }

  lemma SameLeastOrder(d1: seq<Descriptor>, d2: seq<Descriptor>, bindings: map<Capability, Binding>,
                       ids1: seq<PluginId>, ids2: seq<PluginId>)
    requires DistinctIds(d1) && DistinctIds(d2) && Members(d1) == Members(d2)
    requires LeastTopologicalOrder(ActiveGraph(d1, bindings), ids1)
    requires LeastTopologicalOrder(ActiveGraph(d2, bindings), ids2)
    ensures ids1 == ids2
  {
    hide ActiveGraph, Members;
    ActiveGraphOfMembers(d1, d2, bindings);
    LexAntisymmetric(ids1, ids2);
  }

  /** And the plugins are activated in the same order. */
  lemma ActivationOrderIrrelevant(d1: seq<Descriptor>, d2: seq<Descriptor>, bindings: map<Capability, Binding>,
                                  o1: seq<nat>, o2: seq<nat>)
    requires multiset(d1) == multiset(d2) && Activates(d1, bindings, o1) && Activates(d2, bindings, o2)
    ensures |o1| == |o2| && forall k | 0 <= k < |o1| :: o1[k] < |d1| && o2[k] < |d2| && d1[o1[k]] == d2[o2[k]]
  {
    SameMembers(d1, d2);
    var ids1 := OrderOf(d1, bindings, o1);
    var ids2 := OrderOf(d2, bindings, o2);
    SameLeastOrder(d1, d2, bindings, ids1, ids2);
    assert |o1| == |ids1| && |o2| == |ids2|;
    hide *;
    forall k | 0 <= k < |o1| ensures o1[k] < |d1| && o2[k] < |d2| && d1[o1[k]] == d2[o2[k]] {
      PlacedAt(d1, bindings, ids1, o1, k);
      PlacedAt(d2, bindings, ids2, o2, k);
      var j := MemberIndex(d1, d2, o1[k]);
      OneIndex(d2, j, o2[k]);
    }
  }
}
