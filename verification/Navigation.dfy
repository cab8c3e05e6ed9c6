/**
 * The navigation tracker injected into a previewed page: a stack of addresses and an index that shadow the
 * browser's own session history, which a script cannot read.
 */
module Navigation {
  import opened Options

  type Url = string

  datatype Mode = Auto | Push | Replace

  /** The tracker's script-level variables. */
  datatype Nav = Nav(stack: seq<Url>, index: int)

  predicate InRange(n: Nav) {
    0 <= n.index < |n.stack|
  }

  // ---------------------------------------------------------------- what one observation does

  /** Array.prototype.slice(0, end), for an end of any sign. */
  function SliceTo<T>(s: seq<T>, end: int): seq<T> {
    if end >= |s| then s
    else if end >= 0 then s[..end]
    else if |s| + end >= 0 then s[..|s| + end]
    else []
  }

  function Pushed(n: Nav, href: Url): (r: Nav)
    ensures InRange(r) && r.stack[r.index] == href
  {
    var stack := SliceTo(n.stack, n.index + 1) + [href];
    Nav(stack, |stack| - 1)
  }

  predicate Like(norm: Url -> Url, s: seq<Url>, i: int, href: Url) {
    0 <= i < |s| && norm(s[i]) == norm(href)
  }

  function FirstLike(norm: Url -> Url, s: seq<Url>, href: Url): (r: Option<nat>)
    ensures r.Some? <==> exists i :: Like(norm, s, i, href)
    ensures r.Some? ==> Like(norm, s, r.value, href) && forall i :: 0 <= i < r.value ==> !Like(norm, s, i, href)
  {
    if |s| == 0 then None
    else
      var before := FirstLike(norm, s[..|s| - 1], href);
      assert forall i :: Like(norm, s, i, href) <==> Like(norm, s[..|s| - 1], i, href) || (i == |s| - 1 && Like(norm, s, i, href));
      if before.Some? then
        assert Like(norm, s, before.value, href);
        before
      else if Like(norm, s, |s| - 1, href) then Some(|s| - 1)
      else None
  }

  lemma FirstLikeIs(norm: Url -> Url, s: seq<Url>, i: nat, href: Url)
    requires Like(norm, s, i, href) && forall j :: 0 <= j < i ==> !Like(norm, s, j, href)
    ensures FirstLike(norm, s, href) == Some(i)
  {}

  /** Where an address seen without any hint is taken to be: here, one ahead, one behind, or anywhere. */
  function Place(norm: Url -> Url, s: seq<Url>, at: int, href: Url): (r: Option<nat>)
    ensures r.Some? ==> Like(norm, s, r.value, href)
    ensures r.None? <==> forall i :: !Like(norm, s, i, href)
  {
    if Like(norm, s, at, href) then Some(at)
    else if Like(norm, s, at + 1, href) then Some(at + 1)
    else if Like(norm, s, at - 1, href) then Some(at - 1)
    else FirstLike(norm, s, href)
  }

  function Observed(norm: Url -> Url, n: Nav, mode: Mode, href: Url): (r: Nav)
    requires InRange(n)
    ensures InRange(r) && r.stack[r.index] == href
  {
    match mode
    case Replace => Nav(n.stack[n.index := href], n.index)
    case Push => Pushed(n, href)
    case Auto =>
      var place := Place(norm, n.stack, n.index, href);
      if place.Some? then Nav(n.stack[place.value := href], place.value) else Pushed(n, href)
  }

  /** Looking again without having moved changes nothing, so it does not matter how many events fire. */
  lemma ObservingTwice(norm: Url -> Url, n: Nav, mode: Mode, href: Url)
    requires InRange(n)
    ensures var once := Observed(norm, n, mode, href); Observed(norm, once, Auto, href) == once
  {
    var once := Observed(norm, n, mode, href);
    assert Like(norm, once.stack, once.index, href);
    assert once.stack[once.index := href] == once.stack;
  }

  // ---------------------------------------------------------------- starting in a new document

  datatype Entry = Text(url: Url) | Record(url: Url) | Other

  /** What session storage holds: nothing, something that is not such a state, or a stack and an index. */
  datatype Saved = Nothing | Garbled | State(stack: Option<seq<Entry>>, index: Option<int>)

  function Addresses(entries: seq<Entry>): (r: seq<Url>)
    ensures forall i :: 0 <= i < |r| ==> r[i] != ""
  {
    if |entries| == 0 then []
    else
      var rest := Addresses(entries[1..]);
      if entries[0].Other? || entries[0].url == "" then rest else [entries[0].url] + rest
  }

  function Texts(stack: seq<Url>): seq<Entry> {
    if |stack| == 0 then [] else [Text(stack[0])] + Texts(stack[1..])
  }

  function AsSaved(n: Nav): Saved {
    State(Some(Texts(n.stack)), Some(n.index))
  }

  lemma {:induction false} AddressesOfTexts(stack: seq<Url>)
    requires forall i :: 0 <= i < |stack| ==> stack[i] != ""
    ensures Addresses(Texts(stack)) == stack
  {
    if |stack| > 0 {
      AddressesOfTexts(stack[1..]);
    }
  }

  function Loaded(saved: Saved): Nav {
    match saved
    case State(stack, index) =>
      var addresses := if stack.Some? then Addresses(stack.value) else [];
      var at := if index.Some? then index.value else -1;
      Nav(addresses, if at >= |addresses| then |addresses| - 1 else at)
    case _ => Nav([], -1)
  }

  function Started(saved: Saved, href: Url): (r: Nav)
    ensures InRange(r)
  {
    var n := Loaded(saved);
    if |n.stack| == 0 then Nav([href], 0)
    else if n.index < 0 then Nav(n.stack, |n.stack| - 1)
    else n
  }

  predicate Usable(e: Entry) {
    !e.Other? && e.url != ""
  }

  /** Every usable entry, in either form, keeps its place among the usable ones before it, and there are no others. */
  lemma {:induction false} AddressesAreTheUsable(entries: seq<Entry>, i: nat)
    requires i < |entries|
    ensures |Addresses(entries[..i])| + (if Usable(entries[i]) then 1 else 0) == |Addresses(entries[..i + 1])| <= |Addresses(entries)|
    ensures Usable(entries[i]) ==> Addresses(entries)[|Addresses(entries[..i])|] == entries[i].url
  {
    AddressesConcat(entries[..i], entries[i..]);
    AddressesConcat(entries[..i], [entries[i]]);
    AddressesConcat(entries[..i + 1], entries[i + 1..]);
    assert entries[..i] + entries[i..] == entries && entries[..i + 1] + entries[i + 1..] == entries;
    assert entries[..i] + [entries[i]] == entries[..i + 1];
    assert entries[i..][0] == entries[i] && [entries[i]][1..] == [];
  }

  lemma {:induction false} AddressesConcat(a: seq<Entry>, b: seq<Entry>)
    ensures Addresses(a + b) == Addresses(a) + Addresses(b)
  {
    if |a| == 0 {
      assert a + b == b;
    } else {
      assert (a + b)[0] == a[0] && (a + b)[1..] == a[1..] + b;
      AddressesConcat(a[1..], b);
    }
  }

  /**
   * Where a document starts: on the saved entry if the saved index is that of one, else on the last entry
   * saved; with nothing usable saved, on the address shown as the only one.
   */
  lemma StartsWhere(stack: seq<Entry>, index: Option<int>, href: Url)
    ensures var n, addresses := Started(State(Some(stack), index), href), Addresses(stack);
            if addresses == [] then n == Nav([href], 0)
            else n == Nav(addresses, if index.Some? && 0 <= index.value < |addresses| then index.value else |addresses| - 1)
    ensures Started(Nothing, href) == Started(Garbled, href) == Started(State(None, index), href) == Nav([href], 0)
  {
  }

  /** The state saved by one document is the state the next one starts from. */
  lemma RestoredAsSaved(n: Nav, href: Url)
    requires InRange(n) && forall i :: 0 <= i < |n.stack| ==> n.stack[i] != ""
    ensures Started(AsSaved(n), href) == n
  {
    AddressesOfTexts(n.stack);
  }

  // ---------------------------------------------------------------- the tracker

  class SessionStorage {
    var saved: Saved

    constructor (initial: Saved)
      ensures saved == initial
    {
      saved := initial;
    }
  }

  datatype Message = Message(seqNo: nat, url: Url, canGoBack: bool, canGoForward: bool)

  class NavTracker {
    const storage: SessionStorage
    var navStack: seq<Url>
    var navIndex: int
    var navSeq: nat
    var lastObservedHref: Url

    function Now(): Nav
      reads this
    {
      Nav(navStack, navIndex)
    }

    constructor (shared: SessionStorage, href: Url)
      ensures storage == shared && Now() == Nav([], -1) && lastObservedHref == href && navSeq == 0
    {
      storage := shared;
      navStack := [];
      navIndex := -1;
      navSeq := 0;
      lastObservedHref := href;
    }

    method LoadNavState()
      requires Now() == Nav([], -1)
      modifies this`navStack, this`navIndex
      ensures Now() == Loaded(storage.saved)
    {
      match storage.saved
      case Nothing =>
      case Garbled =>
        navStack := [];
        navIndex := -1;
      case State(stack, index) =>
        if stack.Some? {
          navStack := Addresses(stack.value);
        } else {
          navStack := [];
        }
        navIndex := if index.Some? then index.value else -1;
        if navIndex >= |navStack| {
          navIndex := |navStack| - 1;
        }
    }

    /** `stores` is whether the browser accepts the write. */
    method SaveNavState(stores: bool)
      modifies storage
      ensures storage.saved == if stores then AsSaved(Now()) else old(storage.saved)
    {
      if stores {
        storage.saved := AsSaved(Now());
      }
    }

    method SendNavigation(href: Url) returns (sent: Message)
      modifies this`navSeq
      ensures navSeq == old(navSeq) + 1
      ensures sent == Message(navSeq, href, navIndex > 0, navIndex < |navStack| - 1)
    {
      navSeq := navSeq + 1;
      sent := Message(navSeq, href, navIndex > 0, navIndex < |navStack| - 1);
    }

    method EnsureCurrentInStack(norm: Url -> Url, currentHref: Url, mode: Mode)
      requires InRange(Now())
      modifies this`navStack, this`navIndex
      ensures Now() == Observed(norm, old(Now()), mode, currentHref)
    {
      var normalized := norm(currentHref);
      var found := false;
      if mode == Replace {
        navStack := navStack[navIndex := currentHref];
        return;
      }
      if mode == Push {
        navStack := SliceTo(navStack, navIndex + 1) + [currentHref];
        navIndex := |navStack| - 1;
        return;
      }
      if norm(navStack[navIndex]) == normalized {
        navStack := navStack[navIndex := currentHref];
        found := true;
      } else if navIndex + 1 < |navStack| && norm(navStack[navIndex + 1]) == normalized {
        navIndex := navIndex + 1;
        navStack := navStack[navIndex := currentHref];
        found := true;
      } else if navIndex > 0 && norm(navStack[navIndex - 1]) == normalized {
        navIndex := navIndex - 1;
        navStack := navStack[navIndex := currentHref];
        found := true;
      } else {
        var i := 0;
        while i < |navStack|
          invariant 0 <= i <= |navStack| && !found
          invariant navStack == old(navStack) && navIndex == old(navIndex)
          invariant forall j :: 0 <= j < i ==> !Like(norm, navStack, j, currentHref)
        {
          if norm(navStack[i]) == normalized {
            FirstLikeIs(norm, navStack, i, currentHref);
            navIndex := i;
            navStack := navStack[navIndex := currentHref];
            found := true;
            break;
          }
          i := i + 1;
        }
      }
      if !found {
        assert forall j :: !Like(norm, navStack, j, currentHref);
        navStack := SliceTo(navStack, navIndex + 1) + [currentHref];
        navIndex := |navStack| - 1;
      }
    }

    method ObserveLocation(norm: Url -> Url, href: Url, mode: Mode, stores: bool) returns (sent: Message)
      requires InRange(Now())
      modifies this, storage
      ensures Now() == Observed(norm, old(Now()), mode, href) && lastObservedHref == href
      ensures storage.saved == if stores then AsSaved(Now()) else old(storage.saved)
      ensures sent == Message(navSeq, href, navIndex > 0, navIndex < |navStack| - 1)
      ensures navSeq == old(navSeq) + 1
    {
      lastObservedHref := href;
      EnsureCurrentInStack(norm, href, mode);
      SaveNavState(stores);
      sent := SendNavigation(href);
    }

    /** The script's start in a new document. */
    method InitializeNavigation(norm: Url -> Url, href: Url, stores: bool) returns (sent: Message)
      requires Now() == Nav([], -1)
      modifies this, storage
      ensures Now() == Observed(norm, Started(old(storage.saved), href), Auto, href) && lastObservedHref == href
      ensures stores ==> storage.saved == AsSaved(Now())
    {
      LoadNavState();
      if |navStack| == 0 {
        navStack := [href];
        navIndex := 0;
        SaveNavState(stores);
      } else if navIndex < 0 || navIndex >= |navStack| {
        navIndex := if |navStack| - 1 < 0 then 0 else |navStack| - 1;
        SaveNavState(stores);
      }
      sent := ObserveLocation(norm, href, Auto, stores);
    }

    /** The timer: looks only when the address is not the one seen last. */
    method Poll(norm: Url -> Url, href: Url, stores: bool)
      requires InRange(Now())
      modifies this, storage
      ensures lastObservedHref == href
      ensures Now() == if href == old(lastObservedHref) then old(Now()) else Observed(norm, old(Now()), Auto, href)
      ensures old(navStack[navIndex]) == old(lastObservedHref) ==> Now() == Observed(norm, old(Now()), Auto, href)
    {
      if href != lastObservedHref {
        var _ := ObserveLocation(norm, href, Auto, stores);
      } else if navStack[navIndex] == href {
        assert Like(norm, navStack, navIndex, href);
        assert navStack[navIndex := href] == navStack;
      }
    }

    /** The toolbar's "go to": the address is pushed before the browser is asked to go there. */
    method Goto(url: Url, href: Url, stores: bool)
      requires InRange(Now())
      modifies this, storage
      ensures Now() == if url == "" then old(Now()) else Pushed(old(Now()), url)
      ensures stores && url != "" ==> storage.saved == AsSaved(Now())
    {
      if url != "" {
        navStack := SliceTo(navStack, navIndex + 1) + [url];
        navIndex := |navStack| - 1;
        SaveNavState(stores);
        var _ := SendNavigation(href);
      }
    }
  }

  // ---------------------------------------------------------------- the browser's session history

  datatype History = History(entries: seq<Url>, pos: nat)

  ghost predicate ValidHistory(h: History) {
    h.pos < |h.entries| && forall i :: 0 <= i < |h.entries| ==> h.entries[i] != ""
  }

  /**
   * PushState and ReplaceState are the calls the tracker wraps. Go is a traversal, by whatever means. Link is
   * any other navigation, to a fragment or to a new document. Goto is the toolbar's request, where the browser
   * resolves what was asked to an address. Look is any further event or restart of the script in place.
   */
  datatype Event =
    | PushState(url: Url)
    | ReplaceState(url: Url)
    | Go(to: nat)
    | Link(url: Url)
    | Goto(asked: Url, url: Url)
    | Look

  ghost predicate Possible(h: History, e: Event) {
    match e
    case PushState(url) => url != ""
    case ReplaceState(url) => url != ""
    case Go(to) => to < |h.entries|
    case Link(url) => url != ""
    case Goto(asked, url) => asked != "" && url != ""
    case Look => true
  }

  /** Navigating to the very address one is at replaces the entry instead of adding one. */
  function Navigated(h: History, url: Url): History
    requires h.pos < |h.entries|
  {
    if url == h.entries[h.pos] then h else History(h.entries[..h.pos + 1] + [url], h.pos + 1)
  }

  function Browser(h: History, e: Event): History
    requires ValidHistory(h) && Possible(h, e)
  {
    match e
    case PushState(url) => History(h.entries[..h.pos + 1] + [url], h.pos + 1)
    case ReplaceState(url) => History(h.entries[h.pos := url], h.pos)
    case Go(to) => History(h.entries, to)
    case Link(url) => Navigated(h, url)
    case Goto(_, url) => Navigated(h, url)
    case Look => h
  }

  /** What the tracker makes of an event, given the address the browser shows afterwards. */
  function Tracker(norm: Url -> Url, n: Nav, e: Event, shown: Url): (r: Nav)
    requires InRange(n)
    ensures InRange(r) && r.stack[r.index] == shown
  {
    match e
    case PushState(_) => Observed(norm, n, Push, shown)
    case ReplaceState(_) => Observed(norm, n, Replace, shown)
    case Goto(asked, _) => Observed(norm, Pushed(n, asked), Auto, shown)
    case _ => Observed(norm, n, Auto, shown)
  }

  function Shown(h: History): Url
    requires h.pos < |h.entries|
  {
    h.entries[h.pos]
  }

  /** The tracker has the browser's entries, up to normalization, and the browser's position. */
  ghost predicate Matches(norm: Url -> Url, n: Nav, h: History) {
    && |n.stack| == |h.entries| && n.index == h.pos
    && forall i :: 0 <= i < |n.stack| ==> norm(n.stack[i]) == norm(h.entries[i])
  }

  /** The buttons the toolbar shows are then the browser's possibilities. */
  lemma ButtonsAreRight(norm: Url -> Url, n: Nav, h: History)
    requires InRange(n) && Matches(norm, n, h)
    ensures n.index > 0 <==> h.pos > 0 && Possible(h, Go(h.pos - 1))
    ensures n.index < |n.stack| - 1 <==> Possible(h, Go(h.pos + 1))
  {}

  /** Whether a traversal ends where a hintless observation would look for the address first. */
  ghost predicate FoundWhereItIs(norm: Url -> Url, h: History, to: nat) {
    var e := h.entries;
    && to < |e|
    && (Like(norm, e, h.pos, e[to]) ==> to == h.pos)
    && (!Like(norm, e, h.pos, e[to]) && Like(norm, e, h.pos + 1, e[to]) ==> to == h.pos + 1)
    && (!Like(norm, e, h.pos, e[to]) && !Like(norm, e, h.pos + 1, e[to]) ==>
          to == h.pos - 1 || (!Like(norm, e, h.pos - 1, e[to]) && forall i :: 0 <= i < to ==> !Like(norm, e, i, e[to])))
  }

  /** The condition, on the browser's history alone, under which the tracker follows an event. */
  ghost predicate Trackable(norm: Url -> Url, h: History, e: Event) {
    match e
    case Go(to) => FoundWhereItIs(norm, h, to)
    case Link(url) =>
      || (h.pos < |h.entries| && url == h.entries[h.pos])
      || (forall i :: !Like(norm, h.entries, i, url))
      || (|h.entries| == h.pos + 2 && Like(norm, h.entries, h.pos + 1, url) && !Like(norm, h.entries, h.pos, url))
    case Goto(asked, url) =>
      || (h.pos < |h.entries| && url != h.entries[h.pos] && norm(asked) == norm(url))
      || (|h.entries| == h.pos + 2 && url == h.entries[h.pos] && norm(url) != norm(asked) == norm(h.entries[h.pos + 1]))
    case _ => true
  }

  lemma SamePlace(norm: Url -> Url, s: seq<Url>, t: seq<Url>, at: int, href: Url)
    requires |s| == |t| && forall i :: 0 <= i < |s| ==> norm(s[i]) == norm(t[i])
    ensures Place(norm, s, at, href) == Place(norm, t, at, href)
  {
    assert forall i :: Like(norm, s, i, href) == Like(norm, t, i, href);
    var a, b := FirstLike(norm, s, href), FirstLike(norm, t, href);
    if a.Some? {
      assert Like(norm, t, a.value, href);
    }
    if b.Some? {
      assert Like(norm, s, b.value, href);
    }
  }

  /** A traversal is followed exactly when the address is found where the browser went. */
  lemma GoExact(norm: Url -> Url, n: Nav, h: History, to: nat)
    requires ValidHistory(h) && Matches(norm, n, h) && to < |h.entries|
    ensures Matches(norm, Tracker(norm, n, Go(to), h.entries[to]), History(h.entries, to))
            <==> FoundWhereItIs(norm, h, to)
  {
    var href := h.entries[to];
    SamePlace(norm, n.stack, h.entries, n.index, href);
    assert Like(norm, h.entries, to, href);
    var place := Place(norm, h.entries, h.pos, href);
    assert place.Some?;
    assert place.value == to <==> FoundWhereItIs(norm, h, to);
  }

  lemma LinkExact(norm: Url -> Url, n: Nav, h: History, url: Url)
    requires ValidHistory(h) && Matches(norm, n, h)
    ensures var after := Navigated(h, url);
            Matches(norm, Tracker(norm, n, Link(url), Shown(after)), after) <==> Trackable(norm, h, Link(url))
  {
    SamePlace(norm, n.stack, h.entries, n.index, url);
    var place := Place(norm, h.entries, h.pos, url);
    var after := Navigated(h, url);
    if url == h.entries[h.pos] {
      assert Like(norm, h.entries, h.pos, url);
    } else if place.Some? {
      assert Like(norm, h.entries, place.value, url);
    }
  }

  lemma GotoExact(norm: Url -> Url, n: Nav, h: History, asked: Url, url: Url)
    requires ValidHistory(h) && Matches(norm, n, h)
    ensures var after := Navigated(h, url);
            Matches(norm, Tracker(norm, n, Goto(asked, url), Shown(after)), after) <==> Trackable(norm, h, Goto(asked, url))
  {
    var p := Pushed(n, asked);
    var place := Place(norm, p.stack, p.index, url);
    assert |p.stack| == h.pos + 2 && p.stack[p.index] == asked;
    assert p.stack[..h.pos + 1] == n.stack[..h.pos + 1];
    if norm(asked) == norm(url) {
      assert Like(norm, p.stack, p.index, url);
    } else {
      assert !Like(norm, p.stack, p.index, url) && !Like(norm, p.stack, p.index + 1, url);
      assert place.Some? ==> place.value <= h.pos;
      if url == h.entries[h.pos] {
        assert Like(norm, p.stack, h.pos, url);
        assert place == Some(h.pos);
        var r := Observed(norm, p, Auto, url);
        assert |r.stack| == h.pos + 2 && r.stack[h.pos + 1] == asked;
      }
    }
  }

  /** From a matching state, an event leaves the tracker matching if and only if it is trackable. */
  lemma StepExact(norm: Url -> Url, n: Nav, h: History, e: Event)
    requires ValidHistory(h) && Possible(h, e) && Matches(norm, n, h)
    ensures Matches(norm, Tracker(norm, n, e, Shown(Browser(h, e))), Browser(h, e)) <==> Trackable(norm, h, e)
  {
    match e
    case Go(to) => GoExact(norm, n, h, to);
    case Link(url) => LinkExact(norm, n, h, url);
    case Goto(asked, url) => GotoExact(norm, n, h, asked, url);
    case Look => assert Like(norm, n.stack, n.index, Shown(h));
    case PushState(_) =>
    case ReplaceState(_) =>
  }

  /** Stepping back is followed unless the entry behind looks like the current one or like the one ahead. */
  lemma BackExact(norm: Url -> Url, h: History)
    requires ValidHistory(h) && h.pos > 0
    ensures FoundWhereItIs(norm, h, h.pos - 1) <==>
            && norm(h.entries[h.pos - 1]) != norm(h.entries[h.pos])
            && (h.pos + 1 < |h.entries| ==> norm(h.entries[h.pos - 1]) != norm(h.entries[h.pos + 1]))
  {}

  lemma ForwardExact(norm: Url -> Url, h: History)
    requires ValidHistory(h) && h.pos + 1 < |h.entries|
    ensures FoundWhereItIs(norm, h, h.pos + 1) <==> norm(h.entries[h.pos + 1]) != norm(h.entries[h.pos])
  {
    assert Like(norm, h.entries, h.pos + 1, h.entries[h.pos + 1]);
  }

  // ---------------------------------------------------------------- runs

  ghost predicate RunPossible(h: History, es: seq<Event>)
    decreases |es|
  {
    ValidHistory(h) && (|es| > 0 ==> Possible(h, es[0]) && RunPossible(Browser(h, es[0]), es[1..]))
  }

  ghost function BrowserRun(h: History, es: seq<Event>): (r: History)
    requires RunPossible(h, es)
    ensures ValidHistory(r)
    decreases |es|
  {
    if |es| == 0 then h else BrowserRun(Browser(h, es[0]), es[1..])
  }

  ghost function TrackerRun(norm: Url -> Url, n: Nav, h: History, es: seq<Event>): (r: Nav)
    requires InRange(n) && RunPossible(h, es)
    ensures InRange(r)
    decreases |es|
  {
    if |es| == 0 then n
    else TrackerRun(norm, Tracker(norm, n, es[0], Shown(Browser(h, es[0]))), Browser(h, es[0]), es[1..])
  }

  ghost predicate RunTrackable(norm: Url -> Url, h: History, es: seq<Event>)
    requires RunPossible(h, es)
    decreases |es|
  {
    |es| > 0 ==> Trackable(norm, h, es[0]) && RunTrackable(norm, Browser(h, es[0]), es[1..])
  }

  /** Over any run of trackable events the tracker refines the browser's history. */
  lemma {:induction false} RunRefines(norm: Url -> Url, n: Nav, h: History, es: seq<Event>)
    requires RunPossible(h, es) && Matches(norm, n, h) && RunTrackable(norm, h, es)
    ensures Matches(norm, TrackerRun(norm, n, h, es), BrowserRun(h, es))
    decreases |es|
  {
    if |es| > 0 {
      StepExact(norm, n, h, es[0]);
      RunRefines(norm, Tracker(norm, n, es[0], Shown(Browser(h, es[0]))), Browser(h, es[0]), es[1..]);
    }
  }

  ghost predicate Distinct(norm: Url -> Url, h: History) {
    forall i, j :: 0 <= i < j < |h.entries| ==> norm(h.entries[i]) != norm(h.entries[j])
  }

  /** A link leads to where one is or to an address unlike every entry, those ahead included. */
  ghost predicate Fresh(norm: Url -> Url, h: History, e: Event) {
    match e
    case Link(url) => (h.pos < |h.entries| && url == h.entries[h.pos]) || forall i :: !Like(norm, h.entries, i, url)
    case Goto(asked, url) => norm(asked) == norm(url) && h.pos < |h.entries| && url != h.entries[h.pos]
    case _ => true
  }

  ghost predicate RunDistinct(norm: Url -> Url, h: History, es: seq<Event>)
    requires RunPossible(h, es)
    decreases |es|
  {
    Distinct(norm, h) && (|es| > 0 ==> Fresh(norm, h, es[0]) && RunDistinct(norm, Browser(h, es[0]), es[1..]))
  }

  /** While entries stay pairwise distinct and links lead to new addresses, every traversal is followed. */
  lemma {:induction false} DistinctIsTrackable(norm: Url -> Url, h: History, es: seq<Event>)
    requires RunPossible(h, es) && RunDistinct(norm, h, es)
    ensures RunTrackable(norm, h, es)
    decreases |es|
  {
    if |es| > 0 {
      assert Trackable(norm, h, es[0]);
      DistinctIsTrackable(norm, Browser(h, es[0]), es[1..]);
    }
  }

  /** A first document with nothing saved starts matched to a history of one entry. */
  lemma StartsMatched(norm: Url -> Url, saved: Saved, href: Url)
    requires Loaded(saved).stack == []
    ensures Matches(norm, Observed(norm, Started(saved, href), Auto, href), History([href], 0))
  {
    assert Like(norm, [href], 0, href);
  }

  /**
   * From a first document with nothing usable saved, through any run of trackable events, new documents
   * included, the tracker has the browser's history and shows its possibilities.
   */
  lemma FromTheFirstDocument(norm: Url -> Url, saved: Saved, href: Url, es: seq<Event>)
    requires Loaded(saved).stack == [] && RunPossible(History([href], 0), es) && RunTrackable(norm, History([href], 0), es)
    ensures var n := TrackerRun(norm, Observed(norm, Started(saved, href), Auto, href), History([href], 0), es);
            var h := BrowserRun(History([href], 0), es);
            && Matches(norm, n, h)
            && (n.index > 0 <==> h.pos > 0) && (n.index < |n.stack| - 1 <==> h.pos + 1 < |h.entries|)
  {
    StartsMatched(norm, saved, href);
    RunRefines(norm, Observed(norm, Started(saved, href), Auto, href), History([href], 0), es);
  }

  /**
   * Distinct entries alone are not enough. After going back from "c" to "a", following a link to "c" leaves
   * the browser with two entries and the tracker with three.
   */
  lemma DistinctEntriesAreNotEnough(norm: Url -> Url)
    requires norm("a") != norm("b") && norm("b") != norm("c") && norm("a") != norm("c")
    ensures var h, n := History(["a", "b", "c"], 0), Nav(["a", "b", "c"], 0);
            var after := Browser(h, Link("c"));
            && Matches(norm, n, h) && Distinct(norm, h) && Distinct(norm, after)
            && after == History(["a", "c"], 1)
            && Tracker(norm, n, Link("c"), "c") == Nav(["a", "b", "c"], 2)
  {
    assert !Like(norm, ["a", "b", "c"], 0, "c") && !Like(norm, ["a", "b", "c"], 1, "c");
    assert Like(norm, ["a", "b", "c"], 2, "c");
  }

  /** From any state, matched or not, every event leaves the index in range on the address shown. */
  lemma {:induction false} AlwaysInRange(norm: Url -> Url, n: Nav, h: History, es: seq<Event>)
    requires InRange(n) && RunPossible(h, es) && |es| > 0
    ensures var r := TrackerRun(norm, n, h, es);
            InRange(r) && r.stack[r.index] == Shown(BrowserRun(h, es))
    decreases |es|
  {
    if |es| > 1 {
      AlwaysInRange(norm, Tracker(norm, n, es[0], Shown(Browser(h, es[0]))), Browser(h, es[0]), es[1..]);
    }
  }
}
