/**
 * Executor profiles: bringing variant names to canonical form, computing what to save relative to the
 * built-in defaults, and merging it back on load.
 */
module Profiles {
  import opened Options

  type Key = string
  datatype Config = Config(agent: Key, settings: string)
  datatype Recents = Recents(models: seq<string>, reasoningByModel: map<string, string>)
  datatype Profile = Profile(recents: Option<Recents>, configs: map<string, Config>)
  type Executors = map<Key, Profile>

  const NO_RECENTS := Recents([], map[])

  datatype ProfileError =
    | CannotDeleteExecutor(executor: Key)
    | CannotDeleteBuiltInConfig(executor: Key, variant: string)
    | Validation(executor: Key)
    | Io

  ghost predicate Idempotent(key: string -> string) {
    forall s :: key(key(s)) == key(s)
  }

  // ---------------------------------------------------------------- canonical names

  /**
   * What canonicalising one profile's configurations may give. It is a relation because the order in which
   * a hash map is read decides between two names that are both out of form and meet in one canonical name.
   */
  ghost predicate Canonicalised(key: string -> string, m: map<string, Config>, r: map<string, Config>) {
    && (forall k :: k in r ==> key(k) == k && exists j :: j in m && key(j) == k && r[k] == m[j])
    && (forall k :: k in m ==> key(k) in r)
    && (forall k :: k in m && key(k) == k ==> r[k] == m[k])
  }

  ghost predicate AllCanonicalised(key: string -> string, m: Executors, r: Executors) {
    && r.Keys == m.Keys
    && (forall e :: e in m ==> r[e].recents == m[e].recents && Canonicalised(key, m[e].configs, r[e].configs))
  }

  ghost predicate CanonicalKeys(key: string -> string, m: Executors) {
    forall e, k :: e in m && k in m[e].configs ==> key(k) == k
  }

  /** Canonicalising leaves only canonical names, and does nothing to a configuration that has no others. */
  lemma CanonicalIsFixed(key: string -> string, m: Executors, r: Executors)
    requires AllCanonicalised(key, m, r)
    ensures CanonicalKeys(key, r)
    ensures CanonicalKeys(key, m) <==> r == m
  {
    if CanonicalKeys(key, m) {
      forall e | e in m
        ensures r[e] == m[e]
      {
        forall k | k in r[e].configs
          ensures k in m[e].configs
        {}
        assert r[e].configs == m[e].configs;
      }
    }
  }

  lemma CanonicaliseTwice(key: string -> string, m: Executors, r: Executors, again: Executors)
    requires AllCanonicalised(key, m, r) && AllCanonicalised(key, r, again)
    ensures again == r
  {
    CanonicalIsFixed(key, m, r);
    CanonicalIsFixed(key, r, again);
  }

  /** A configuration disappears only if another one of the same profile has the same canonical name. */
  lemma DroppedOnlyOnCollision(key: string -> string, m: map<string, Config>, r: map<string, Config>, name: string)
    requires Canonicalised(key, m, r) && name in m && r[key(name)] != m[name]
    ensures key(name) != name
    ensures exists other :: other in m && other != name && key(other) == key(name) && r[key(name)] == m[other]
  {
    assert key(name) in r;
  }

  /** With no two names meeting, nothing is lost and the outcome does not depend on any order. */
  lemma NoCollisionNoLoss(key: string -> string, m: map<string, Config>, r: map<string, Config>)
    requires Canonicalised(key, m, r)
    requires forall i, j :: i in m && j in m && key(i) == key(j) ==> i == j
    ensures forall k :: k in m ==> r[key(k)] == m[k]
    ensures |r| == |m|
  {
    forall k | k in m
      ensures r[key(k)] == m[k]
    {
      assert key(k) in r;
    }
    SameSize(key, m.Keys, r.Keys);
    assert |m| == |m.Keys| && |r| == |r.Keys|;
  }

  lemma {:induction false} SameSize(key: string -> string, a: set<string>, b: set<string>)
    requires forall i, j :: i in a && j in a && key(i) == key(j) ==> i == j
    requires forall i :: i in a ==> key(i) in b
    requires forall k :: k in b ==> exists i :: i in a && key(i) == k
    ensures |a| == |b|
    decreases a
  {
    if a == {} {
      assert b == {};
    } else {
      var i :| i in a;
      var rest := b - {key(i)};
      forall k | k in rest
        ensures exists j :: j in a - {i} && key(j) == k
      {
        var j :| j in a && key(j) == k;
        assert j in a - {i};
      }
      SameSize(key, a - {i}, rest);
    }
  }

  /** The names found out of canonical form, in the order the map was read. */
  ghost predicate IsReplacementList(key: string -> string, m: map<string, Config>, list: seq<string>) {
    && (forall i :: 0 <= i < |list| ==> list[i] in m && key(list[i]) != list[i])
    && (forall i, j :: 0 <= i < j < |list| ==> list[i] != list[j])
    && (forall k :: k in m && key(k) != k ==> k in list)
  }

  method Replacements(key: string -> string, m: map<string, Config>) returns (list: seq<string>)
    ensures IsReplacementList(key, m, list)
  {
    list := [];
    var todo := m.Keys;
    while todo != {}
      invariant todo <= m.Keys
      invariant forall i :: 0 <= i < |list| ==> list[i] in m && list[i] !in todo && key(list[i]) != list[i]
      invariant forall i, j :: 0 <= i < j < |list| ==> list[i] != list[j]
      invariant forall k :: k in m && key(k) != k && k !in todo ==> k in list
      decreases todo
    {
      var k :| k in todo;
      todo := todo - {k};
      if key(k) != k {
        list := list + [k];
      }
    }
  }

  /** Half-way through the replacements: the first n names have moved, the rest still stand where they stood. */
  ghost predicate Moved(key: string -> string, m: map<string, Config>, list: seq<string>, n: nat, r: map<string, Config>)
    requires n <= |list|
  {
    && Standing(key, m, list, n, r)
    && (forall k :: k in r ==> Settled(key, m, k, r) || Pending(list, n, k))
  }

  ghost predicate Standing(key: string -> string, m: map<string, Config>, list: seq<string>, n: nat, r: map<string, Config>)
    requires n <= |list|
  {
    && (forall i :: n <= i < |list| ==> list[i] in r && list[i] in m && r[list[i]] == m[list[i]])
    && (forall i :: 0 <= i < n ==> list[i] !in r && key(list[i]) in r)
    && (forall k :: k in m && key(k) == k ==> k in r && r[k] == m[k])
  }

  ghost predicate Pending(list: seq<string>, n: nat, k: string) {
    exists i :: n <= i < |list| && list[i] == k
  }

  /** A canonical name that holds the value of a name with this canonical form. */
  ghost predicate Settled(key: string -> string, m: map<string, Config>, k: string, r: map<string, Config>)
    requires k in r
  {
    key(k) == k && exists j :: j in m && key(j) == k && r[k] == m[j]
  }

  /** One replacement: the value stays under the canonical name unless that name is taken. */
  function MovedOne(key: string -> string, name: string, r: map<string, Config>): map<string, Config>
    requires name in r
  {
    var rest := r - {name};
    if key(name) in rest then rest else rest[key(name) := r[name]]
  }

  lemma MoveOne(key: string -> string, m: map<string, Config>, list: seq<string>, n: nat, r: map<string, Config>)
    requires Idempotent(key) && IsReplacementList(key, m, list)
    requires n < |list| && Moved(key, m, list, n, r)
    ensures list[n] in r && Moved(key, m, list, n + 1, MovedOne(key, list[n], r))
  {
    var next := MovedOne(key, list[n], r);
    MoveOneStanding(key, m, list, n, r);
    hide Standing, Settled, Pending, MovedOne, IsReplacementList;
    forall k | k in next
      ensures Settled(key, m, k, next) || Pending(list, n + 1, k)
    {
      MoveOneName(key, m, list, n, r, k);
    }
  }

  lemma MoveOneStanding(key: string -> string, m: map<string, Config>, list: seq<string>, n: nat, r: map<string, Config>)
    requires Idempotent(key) && IsReplacementList(key, m, list)
    requires n < |list| && Standing(key, m, list, n, r)
    ensures Standing(key, m, list, n + 1, MovedOne(key, list[n], r))
  {
    assert key(key(list[n])) == key(list[n]);
    var next := MovedOne(key, list[n], r);
    assert forall k :: k in r && k != list[n] ==> k in next && next[k] == r[k];
    forall i | n < i < |list|
      ensures list[i] in next && next[list[i]] == m[list[i]]
    {
      assert list[i] != list[n];
    }
    forall i | 0 <= i <= n
      ensures list[i] !in next && key(list[i]) in next
    {
      assert list[i] != key(list[n]);
      assert key(list[i]) != list[n];
    }
  }

  lemma MoveOneName(key: string -> string, m: map<string, Config>, list: seq<string>, n: nat, r: map<string, Config>, k: string)
    requires Idempotent(key) && IsReplacementList(key, m, list)
    requires n < |list| && Moved(key, m, list, n, r)
    requires k in MovedOne(key, list[n], r)
    ensures Settled(key, m, k, MovedOne(key, list[n], r)) || Pending(list, n + 1, k)
  {
    var name, next := list[n], MovedOne(key, list[n], r);
    if k == key(name) && k !in r {
      assert key(key(name)) == key(name);
      assert name in m && key(name) == k && next[k] == m[name];
    } else {
      assert k in r && next[k] == r[k] && k != name;
      if !Settled(key, m, k, r) {
        var i :| n <= i < |list| && list[i] == k;
        assert i != n;
      }
    }
  }

  lemma MoveNone(key: string -> string, m: map<string, Config>, list: seq<string>)
    requires IsReplacementList(key, m, list)
    ensures Moved(key, m, list, 0, m)
  {
    forall k | k in m
      ensures Settled(key, m, k, m) || Pending(list, 0, k)
    {
      if key(k) != k {
        assert k in list;
      }
    }
  }

  lemma MoveAll(key: string -> string, m: map<string, Config>, list: seq<string>, r: map<string, Config>)
    requires IsReplacementList(key, m, list) && Moved(key, m, list, |list|, r)
    ensures Canonicalised(key, m, r)
  {
    forall k | k in r
      ensures Settled(key, m, k, r)
    {
      assert !Pending(list, |list|, k);
    }
    forall k | k in m
      ensures key(k) in r
    {
      if key(k) != k {
        assert k in list;
      }
    }
  }

  method CanonicaliseConfigs(key: string -> string, m: map<string, Config>) returns (r: map<string, Config>)
    requires Idempotent(key)
    ensures Canonicalised(key, m, r)
  {
    r := m;
    var list := Replacements(key, m);
    hide Moved, IsReplacementList, Canonicalised, MovedOne;
    MoveNone(key, m, list);
    var n := 0;
    while n < |list|
      invariant 0 <= n <= |list|
      invariant Moved(key, m, list, n, r)
    {
      MoveOne(key, m, list, n, r);
      r := Replace(key, list[n], r);
      n := n + 1;
    }
    MoveAll(key, m, list, r);
  }

  method Replace(key: string -> string, name: string, m: map<string, Config>) returns (r: map<string, Config>)
    requires name in m
    ensures r == MovedOne(key, name, m)
  {
    r := m - {name};
    if key(name) !in r {
      r := r[key(name) := m[name]];
    }
  }

  // ---------------------------------------------------------------- merging over the defaults

  function MergedProfile(d: Profile, o: Profile): Profile {
    Profile(if o.recents.Some? then o.recents else d.recents, d.configs + o.configs)
  }

  function Merged(d: Executors, o: Executors): Executors {
    map e | e in d.Keys + o.Keys ::
      if e !in d then o[e] else if e !in o then d[e] else MergedProfile(d[e], o[e])
  }

  method MergeWithDefaults(d: Executors, o: Executors) returns (r: Executors)
    ensures r == Merged(d, o)
  {
    r := d;
    var todo := o.Keys;
    while todo != {}
      invariant todo <= o.Keys
      invariant r.Keys == d.Keys + (o.Keys - todo)
      invariant forall e :: e in r ==> r[e] == if e in todo || e !in o then d[e] else Merged(d, o)[e]
      decreases todo
    {
      var e :| e in todo;
      todo := todo - {e};
      if e in r {
        var configs := InsertAll(r[e].configs, o[e].configs);
        var recents := r[e].recents;
        if o[e].recents.Some? {
          recents := o[e].recents;
        }
        r := r[e := Profile(recents, configs)];
      } else {
        r := r[e := o[e]];
      }
    }
    assert r.Keys == Merged(d, o).Keys;
  }

  method InsertAll(into: map<string, Config>, from: map<string, Config>) returns (r: map<string, Config>)
    ensures r == into + from
  {
    r := into;
    var todo := from.Keys;
    while todo != {}
      invariant todo <= from.Keys
      invariant r.Keys == into.Keys + (from.Keys - todo)
      invariant forall k :: k in r ==> r[k] == if k in from && k !in todo then from[k] else into[k]
      decreases todo
    {
      var k :| k in todo;
      todo := todo - {k};
      r := r[k := from[k]];
    }
  }

  // ---------------------------------------------------------------- what to save

  function ConfigOverrides(d: map<string, Config>, c: map<string, Config>): map<string, Config> {
    map k | k in c && (k !in d || c[k] != d[k]) :: c[k]
  }

  function RecentsOverride(d: Option<Recents>, c: Option<Recents>): Option<Recents> {
    if c == d then None else if c.Some? then c else Some(NO_RECENTS)
  }

  function ProfileOverride(d: Profile, c: Profile): Profile {
    Profile(RecentsOverride(d.recents, c.recents), ConfigOverrides(d.configs, c.configs))
  }

  predicate Worthwhile(p: Profile) {
    p.configs != map[] || p.recents.Some?
  }

  function Overrides(d: Executors, c: Executors): Executors {
    map e | e in c && (e !in d || Worthwhile(ProfileOverride(d[e], c[e]))) ::
      if e !in d then c[e] else ProfileOverride(d[e], c[e])
  }

  /** A built-in executor or configuration is gone. */
  ghost predicate Deleted(d: Executors, c: Executors) {
    || (exists e :: e in d && e !in c)
    || (exists e, k :: e in d && k in d[e].configs && e in c && k !in c[e].configs)
  }

  /** The error names something that really is gone. */
  ghost predicate Names(err: ProfileError, d: Executors, c: Executors) {
    match err
    case CannotDeleteExecutor(e) => e in d && e !in c
    case CannotDeleteBuiltInConfig(e, k) => e in d && k in d[e].configs && e in c && k !in c[e].configs
    case _ => false
  }

  lemma NamedIsDeleted(err: ProfileError, d: Executors, c: Executors)
    requires Names(err, d, c)
    ensures Deleted(d, c)
  {
    if err.CannotDeleteBuiltInConfig? {
      assert err.executor in d && err.variant in d[err.executor].configs;
    }
  }

  method FindDeletion(d: Executors, c: Executors) returns (found: Option<ProfileError>)
    ensures found.Some? ==> Names(found.value, d, c)
    ensures found.None? ==> !Deleted(d, c)
  {
    var todo := d.Keys;
    while todo != {}
      invariant todo <= d.Keys
      invariant forall e :: e in d && e !in todo ==> e in c && d[e].configs.Keys <= c[e].configs.Keys
      decreases todo
    {
      var e :| e in todo;
      todo := todo - {e};
      if e !in c {
        return Some(CannotDeleteExecutor(e));
      }
      var names := d[e].configs.Keys;
      while names != {}
        invariant names <= d[e].configs.Keys
        invariant forall k :: k in d[e].configs && k !in names ==> k in c[e].configs
        decreases names
      {
        var k :| k in names;
        names := names - {k};
        if k !in c[e].configs {
          return Some(CannotDeleteBuiltInConfig(e, k));
        }
      }
    }
    return None;
  }

  method DifferingConfigs(d: map<string, Config>, c: map<string, Config>) returns (r: map<string, Config>)
    ensures r == ConfigOverrides(d, c)
  {
    r := map[];
    var todo := c.Keys;
    while todo != {}
      invariant todo <= c.Keys
      invariant forall k :: k in r <==> k in c && k !in todo && (k !in d || c[k] != d[k])
      invariant forall k :: k in r ==> r[k] == c[k]
      decreases todo
    {
      var k :| k in todo;
      todo := todo - {k};
      if k in d {
        if c[k] != d[k] {
          r := r[k := c[k]];
        }
      } else {
        r := r[k := c[k]];
      }
    }
  }

  method ComputeOverrides(d: Executors, c: Executors) returns (r: Result<Executors, ProfileError>)
    ensures r.Err? <==> Deleted(d, c)
    ensures r.Err? ==> Names(r.error, d, c)
    ensures r.Ok? ==> r.value == Overrides(d, c)
  {
    var deletion := FindDeletion(d, c);
    if deletion.Some? {
      NamedIsDeleted(deletion.value, d, c);
      return Err(deletion.value);
    }
    var o: Executors := map[];
    var todo := c.Keys;
    while todo != {}
      invariant todo <= c.Keys
      invariant forall e :: e in o <==> e in Overrides(d, c) && e !in todo
      invariant forall e :: e in o ==> o[e] == Overrides(d, c)[e]
      decreases todo
    {
      var e :| e in todo;
      todo := todo - {e};
      if e in d {
        var configs := DifferingConfigs(d[e].configs, c[e].configs);
        var recents := None;
        if c[e].recents != d[e].recents {
          recents := if c[e].recents.Some? then c[e].recents else Some(NO_RECENTS);
        }
        var p := Profile(recents, configs);
        assert p == ProfileOverride(d[e], c[e]);
        if configs != map[] || recents.Some? {
          o := o[e := p];
        }
      } else {
        o := o[e := c[e]];
      }
    }
    return Ok(o);
  }

  // ---------------------------------------------------------------- the round trip

  /** The one thing the saved form cannot say: that a recent-models field with a default was cleared. */
  predicate Cleared(d: Executors, c: Executors, e: Key) {
    e in d && e in c && d[e].recents.Some? && c[e].recents.None?
  }

  function RestoredProfile(d: Profile, c: Profile): Profile {
    if d.recents.Some? && c.recents.None? then c.(recents := Some(NO_RECENTS)) else c
  }

  function Restored(d: Executors, c: Executors): Executors {
    map e | e in c :: if e in d then RestoredProfile(d[e], c[e]) else c[e]
  }

  /** Merging the computed overrides over the defaults gives back the current configuration. */
  lemma RoundTrip(d: Executors, c: Executors)
    requires !Deleted(d, c)
    ensures Merged(d, Overrides(d, c)) == Restored(d, c)
    ensures Merged(d, Overrides(d, c)) == c <==> forall e :: e in c ==> !Cleared(d, c, e)
  {
    var o := Overrides(d, c);
    var m := Merged(d, o);
    assert m.Keys == c.Keys;
    forall e | e in c
      ensures m[e] == Restored(d, c)[e]
    {
      if e in d {
        ProfileRoundTrip(d[e], c[e]);
      }
    }
    assert m == Restored(d, c);
    forall e | e in c
      ensures Cleared(d, c, e) <==> Restored(d, c)[e] != c[e]
    {}
  }

  lemma ProfileRoundTrip(d: Profile, c: Profile)
    requires d.configs.Keys <= c.configs.Keys
    ensures var p := ProfileOverride(d, c);
            && MergedProfile(d, p) == RestoredProfile(d, c)
            && (!Worthwhile(p) ==> c == d)
  {
    var p := ProfileOverride(d, c);
    if p.configs == map[] {
      forall k | k in c.configs
        ensures k in d.configs && c.configs[k] == d.configs[k]
      {
        assert k !in p.configs;
      }
      assert c.configs == d.configs;
    }
  }

  // ---------------------------------------------------------------- nothing superfluous is saved

  predicate ProfileWithin(a: Profile, b: Profile) {
    && (forall k :: k in a.configs ==> k in b.configs && b.configs[k] == a.configs[k])
    && (a.recents.Some? ==> b.recents == a.recents)
  }

  predicate Within(a: Executors, b: Executors) {
    forall e :: e in a ==> e in b && ProfileWithin(a[e], b[e])
  }

  /** A default of no recent models was cleared: the saved empty record then says nothing new. */
  predicate RedundantlyCleared(d: Executors, c: Executors, e: Key) {
    Cleared(d, c, e) && d[e].recents == Some(NO_RECENTS)
  }

  /**
   * The computed overrides are contained in every other set of overrides with the same effect, unless a
   * default that was already empty has been cleared.
   */
  lemma OverridesAreLeast(d: Executors, c: Executors)
    requires !Deleted(d, c)
    ensures (forall o :: Merged(d, o) == Merged(d, Overrides(d, c)) ==> Within(Overrides(d, c), o))
            <==> (forall e :: e in c ==> !RedundantlyCleared(d, c, e))
  {
    var least := Overrides(d, c);
    forall o | Merged(d, o) == Merged(d, least) && forall e :: e in c ==> !RedundantlyCleared(d, c, e)
      ensures Within(least, o)
    {
      LeastWithin(d, c, o);
    }
    forall e | e in c && RedundantlyCleared(d, c, e)
      ensures exists o :: Merged(d, o) == Merged(d, least) && !Within(least, o)
    {
      var o := least[e := least[e].(recents := None)];
      assert Merged(d, o)[e].configs == Merged(d, least)[e].configs;
      assert Merged(d, o) == Merged(d, least);
      assert !ProfileWithin(least[e], o[e]);
    }
  }

  lemma LeastWithin(d: Executors, c: Executors, o: Executors)
    requires !Deleted(d, c) && Merged(d, o) == Merged(d, Overrides(d, c))
    requires forall e :: e in c ==> !RedundantlyCleared(d, c, e)
    ensures Within(Overrides(d, c), o)
  {
    var least := Overrides(d, c);
    RoundTrip(d, c);
    forall e | e in least
      ensures e in o && ProfileWithin(least[e], o[e])
    {
      assert Merged(d, o)[e] == Restored(d, c)[e];
      if e in d {
        WorthwhileShows(d[e], c[e]);
        assert e in o;
        WithinMerged(d[e], c[e], o[e]);
      }
    }
  }

  /** An override worth saving has an effect. */
  lemma WorthwhileShows(d: Profile, c: Profile)
    requires Worthwhile(ProfileOverride(d, c))
    requires !(d.recents == Some(NO_RECENTS) && c.recents.None?)
    ensures RestoredProfile(d, c) != d
  {
    var changed := ProfileOverride(d, c).configs;
    if changed != map[] {
      var k :| k in changed;
      assert k !in d.configs || c.configs[k] != d.configs[k];
    }
  }

  lemma WithinMerged(d: Profile, c: Profile, o: Profile)
    requires MergedProfile(d, o) == RestoredProfile(d, c)
    requires !(d.recents == Some(NO_RECENTS) && c.recents.None?)
    ensures ProfileWithin(ProfileOverride(d, c), o)
  {
    var p := ProfileOverride(d, c);
    forall k | k in p.configs
      ensures k in o.configs && o.configs[k] == p.configs[k]
    {
      assert k in c.configs && c.configs[k] == (d.configs + o.configs)[k];
    }
  }

  /** Nothing is saved exactly when the current configuration is the default one. */
  lemma SavesNothingExactlyAtDefaults(d: Executors, c: Executors)
    requires !Deleted(d, c)
    ensures Overrides(d, c) == map[] <==> c == d
  {
    if Overrides(d, c) == map[] {
      forall e | e in c
        ensures e in d && c[e] == d[e]
      {
        assert e !in Overrides(d, c);
        ProfileRoundTrip(d[e], c[e]);
      }
    }
    if c == d {
      assert forall e :: e in c ==> ProfileOverride(d[e], c[e]).configs == map[];
      assert Overrides(d, c) == map[];
    }
  }

  // ---------------------------------------------------------------- validation

  ghost predicate ValidProfile(e: Key, p: Profile) {
    && "DEFAULT" in p.configs
    && p.configs["DEFAULT"].agent == e
    && forall k :: k in p.configs ==> !("__" <= k)
  }

  ghost predicate Valid(m: Executors) {
    forall e :: e in m ==> ValidProfile(e, m[e])
  }

  /** In a valid configuration every executor has a default of its own kind, and no name is reserved; and conversely. */
  lemma ValidMeans(m: Executors)
    ensures Valid(m) <==>
            forall e :: e in m ==>
              && "DEFAULT" in m[e].configs && m[e].configs["DEFAULT"].agent == e
              && forall k :: k in m[e].configs && |k| >= 2 ==> !(k[0] == '_' && k[1] == '_')
  {
    assert forall k: string :: "__" <= k <==> |k| >= 2 && k[0] == '_' && k[1] == '_';
  }

  method ValidateMerged(m: Executors) returns (r: Result<(), ProfileError>)
    ensures r.Ok? <==> Valid(m)
    ensures r.Err? ==> r.error.Validation? && r.error.executor in m
                       && !ValidProfile(r.error.executor, m[r.error.executor])
  {
    var todo := m.Keys;
    while todo != {}
      invariant todo <= m.Keys
      invariant forall e :: e in m && e !in todo ==> ValidProfile(e, m[e])
      decreases todo
    {
      var e :| e in todo;
      todo := todo - {e};
      var p := m[e];
      if "DEFAULT" !in p.configs {
        return Err(Validation(e));
      }
      if p.configs["DEFAULT"].agent != e {
        return Err(Validation(e));
      }
      var names := p.configs.Keys;
      while names != {}
        invariant names <= p.configs.Keys
        invariant forall k :: k in p.configs && k !in names ==> !("__" <= k)
        decreases names
      {
        var k :| k in names;
        names := names - {k};
        if "__" <= k {
          return Err(Validation(e));
        }
      }
    }
    return Ok(());
  }

  // ---------------------------------------------------------------- saving and loading

  /** The user's profiles file: absent or unreadable, not parseable, or holding a set of overrides. */
  datatype File = Absent | Garbled | Stored(overrides: Executors)

  class ProfilesFile {
    var content: File

    constructor (initial: File)
      ensures content == initial
    {
      content := initial;
    }
  }

  class ExecutorConfigs {
    var executors: Executors

    constructor (initial: Executors)
      ensures executors == initial
    {
      executors := initial;
    }

    method Canonicalise(key: string -> string)
      requires Idempotent(key)
      modifies this
      ensures AllCanonicalised(key, old(executors), executors)
    {
      ghost var before := executors;
      var todo := executors.Keys;
      while todo != {}
        invariant executors.Keys == before.Keys && todo <= before.Keys
        invariant forall e :: e in todo ==> executors[e] == before[e]
        invariant forall e :: e in before && e !in todo ==>
          executors[e].recents == before[e].recents && Canonicalised(key, before[e].configs, executors[e].configs)
        decreases todo
      {
        var e :| e in todo;
        todo := todo - {e};
        var configs := CanonicaliseConfigs(key, executors[e].configs);
        executors := executors[e := executors[e].(configs := configs)];
      }
    }

    /** `failed` is what a failing write leaves behind, if the write fails. */
    method SaveOverrides(key: string -> string, builtIn: Executors, file: ProfilesFile, failed: Option<File>)
      returns (r: Result<(), ProfileError>, ghost now: Executors)
      requires Idempotent(key) && CanonicalKeys(key, builtIn)
      modifies file
      ensures AllCanonicalised(key, executors, now)
      ensures r.Ok? <==> !Deleted(builtIn, now) && Valid(Restored(builtIn, now)) && failed.None?
      ensures r.Ok? ==> file.content == Stored(Overrides(builtIn, now))
      ensures r.Err? ==> file.content == if r.error.Io? && failed.Some? then failed.value else old(file.content)
      ensures r.Err? ==> match r.error
              case Io => failed.Some?
              case Validation(e) => e in now && !ValidProfile(e, Restored(builtIn, now)[e])
              case err => Names(err, builtIn, now)
    {
      var defaults := new ExecutorConfigs(builtIn);
      defaults.Canonicalise(key);
      CanonicalIsFixed(key, builtIn, defaults.executors);
      var current := new ExecutorConfigs(executors);
      current.Canonicalise(key);
      now := current.executors;
      var overrides := ComputeOverrides(defaults.executors, current.executors);
      if overrides.Err? {
        return Err(overrides.error), now;
      }
      RoundTrip(builtIn, now);
      var merged := MergeWithDefaults(defaults.executors, overrides.value);
      var valid := ValidateMerged(merged);
      if valid.Err? {
        return Err(valid.error), now;
      }
      if failed.Some? {
        file.content := failed.value;
        return Err(Io), now;
      }
      file.content := Stored(overrides.value);
      return Ok(()), now;
    }
  }

  method Load(key: string -> string, builtIn: Executors, file: ProfilesFile) returns (r: Executors)
    requires Idempotent(key) && CanonicalKeys(key, builtIn)
    ensures !file.content.Stored? ==> r == builtIn
    ensures file.content.Stored? ==>
              exists o :: AllCanonicalised(key, file.content.overrides, o) && r == Merged(builtIn, o)
  {
    var defaults := new ExecutorConfigs(builtIn);
    defaults.Canonicalise(key);
    CanonicalIsFixed(key, builtIn, defaults.executors);
    match file.content
    case Absent => r := defaults.executors;
    case Garbled => r := defaults.executors;
    case Stored(overrides) =>
      var user := new ExecutorConfigs(overrides);
      user.Canonicalise(key);
      r := MergeWithDefaults(defaults.executors, user.executors);
  }

  /** Whatever canonicalising on load does to a saved file, loading gives back what was saved. */
  lemma LoadAfterSave(key: string -> string, builtIn: Executors, c: Executors, now: Executors, o: Executors)
    requires CanonicalKeys(key, builtIn) && AllCanonicalised(key, c, now) && !Deleted(builtIn, now)
    requires AllCanonicalised(key, Overrides(builtIn, now), o)
    ensures Merged(builtIn, o) == Restored(builtIn, now)
  {
    CanonicalIsFixed(key, c, now);
    var saved := Overrides(builtIn, now);
    assert CanonicalKeys(key, saved);
    CanonicalIsFixed(key, saved, o);
    RoundTrip(builtIn, now);
  }

  /** Saving what was loaded after a save changes nothing any more. */
  lemma SavingAgainIsStable(builtIn: Executors, now: Executors)
    requires !Deleted(builtIn, now)
    ensures var again := Restored(builtIn, now);
            && !Deleted(builtIn, again)
            && Restored(builtIn, again) == again
            && Merged(builtIn, Overrides(builtIn, again)) == again
  {
    var again := Restored(builtIn, now);
    RoundTrip(builtIn, again);
  }
}
