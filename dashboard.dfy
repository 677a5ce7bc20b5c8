/**
 * The dashboard screen of client/src/pages/Dashboard.jsx: the view state
 * `{creations, loading}`, the single fetch-and-settle step `getDashboardData`
 * that the mount effect runs, the toast messages it raises, and the pure
 * projections that the markup renders (count, plan label, spinner / list /
 * empty message).
 *
 * The network and the authentication provider are not modelled: what the
 * `try` block ends with is an `Outcome` given as a parameter, and every
 * `toast.error` call appends its message to a log.
 */
module Dashboard {
  import opened Wrappers

  // ---------------------------------------------------------------------------
  // Data
  // ---------------------------------------------------------------------------

  /** One record of the user's creation history; `CreationItem` reads it opaquely and keys it by `id`. */
  datatype Creation = Creation(id: int, content: string)

  /**
   * How the `try` block of `getDashboardData` ended.
   *  - `Success`: the response body had a truthy `success` flag and its `creations` array.
   *  - `ServerFail`: the response body had a falsy `success` flag and an optional `message`.
   *  - `Thrown`: `getToken()` or `axios.get` threw, or the response body was
   *    null so that reading `data.success` threw; `responseMessage` is
   *    `error?.response?.data?.message` (absent when any link is missing) and
   *    `message` is `error.message`.
   */
  datatype Outcome =
    | Success(creations: seq<Creation>)
    | ServerFail(message: Option<string>)
    | Thrown(responseMessage: Option<string>, message: Option<string>)

  const UnableToFetch: string := "Unable to fetch data"
  const SomethingWentWrong: string := "Something went wrong"
  const NoCreationsFound: string := "No creations found."

  // ---------------------------------------------------------------------------
  // JavaScript `||` over optional strings
  // ---------------------------------------------------------------------------

  /** A message operand is truthy in JavaScript when it is present and not the empty string. */
  predicate Truthy(m: Option<string>) {
    m.Some? && m.value != ""
  }

  /** `chain[i]` is the first truthy operand of `chain`. */
  predicate FirstTruthy(chain: seq<Option<string>>, i: int)
    requires 0 <= i < |chain|
  {
    Truthy(chain[i]) && forall j :: 0 <= j < i ==> !Truthy(chain[j])
  }

  /**
   * `chain[0] || chain[1] || ... || fallback`: the first truthy operand, or
   * the fallback when every operand is falsy.
   */
  function Coalesce(chain: seq<Option<string>>, fallback: string): (r: string)
    ensures (forall i :: 0 <= i < |chain| ==> !Truthy(chain[i])) ==> r == fallback
    ensures forall i :: 0 <= i < |chain| && FirstTruthy(chain, i) ==> r == chain[i].value
    ensures fallback != "" ==> r != ""
  {
    if chain == [] then fallback
    else if Truthy(chain[0]) then chain[0].value
    else
      var r := Coalesce(chain[1..], fallback);
      assert forall i :: 1 <= i < |chain| && FirstTruthy(chain, i) ==> FirstTruthy(chain[1..], i - 1);
      r
  }

  /** The toast raised when the body reports failure: `data.message || "Unable to fetch data"`. */
  function ServerFailMessage(message: Option<string>): (r: string)
    ensures Truthy(message) ==> r == message.value
    ensures !Truthy(message) ==> r == UnableToFetch
    ensures r != ""
  {
    Coalesce([message], UnableToFetch)
  }

  /**
   * The toast raised in the `catch` block:
   * `error?.response?.data?.message || error.message || "Something went wrong"`.
   */
  function ThrownMessage(responseMessage: Option<string>, message: Option<string>): (r: string)
    ensures Truthy(responseMessage) ==> r == responseMessage.value
    ensures !Truthy(responseMessage) && Truthy(message) ==> r == message.value
    ensures !Truthy(responseMessage) && !Truthy(message) ==> r == SomethingWentWrong
    ensures r != ""
  {
    assert FirstTruthy([responseMessage, message], 0) <== Truthy(responseMessage);
    assert FirstTruthy([responseMessage, message], 1) <== !Truthy(responseMessage) && Truthy(message);
    Coalesce([responseMessage, message], SomethingWentWrong)
  }

  // ---------------------------------------------------------------------------
  // View state and its transitions
  // ---------------------------------------------------------------------------

  /**
   * What one mounted dashboard holds: the two `useState` cells, the log of
   * toasts it has raised, and whether React has already run its
   * empty-dependency mount effect.
   */
  datatype Screen = Screen(creations: seq<Creation>, loading: bool, toasts: seq<string>, effectFired: bool)

  /** The state right after mount: `useState([])`, `useState(true)`, no toast, effect not yet run. */
  const Initial: Screen := Screen([], true, [], false)

  /** The toast `getDashboardData` raises for an outcome, if any. */
  function ToastFor(o: Outcome): (t: Option<string>)
    ensures t.None? <==> o.Success?
    ensures o.ServerFail? ==> t == Some(ServerFailMessage(o.message))
    ensures o.Thrown? ==> t == Some(ThrownMessage(o.responseMessage, o.message))
    ensures t.Some? ==> t.value != ""
  {
    match o
    case Success(_) => None
    case ServerFail(m) => Some(ServerFailMessage(m))
    case Thrown(rm, m) => Some(ThrownMessage(rm, m))
  }

  /**
   * `getDashboardData` run to completion on `s` with outcome `o`: the list is
   * replaced on success, a toast is raised otherwise, and the `finally`
   * block clears `loading` in every case.
   */
  function Settle(s: Screen, o: Outcome): (r: Screen)
    ensures !r.loading
    ensures o.Success? ==> r.creations == o.creations && r.toasts == s.toasts
    ensures !o.Success? ==> r.creations == s.creations
    ensures !o.Success? ==> r.toasts == s.toasts + [ToastFor(o).value]
    ensures !o.Success? ==> |r.toasts| == |s.toasts| + 1 && r.toasts[|s.toasts|] != ""
    ensures r.effectFired == s.effectFired
  {
    var tried := match ToastFor(o)
      case None => s.(creations := o.creations)
      case Some(toast) => s.(toasts := s.toasts + [toast]);
    tried.(loading := false)
  }

  /**
   * One commit of the component: React runs the `useEffect(..., [])` callback
   * after the first commit only; that callback calls `getDashboardData`,
   * which, resolving with `o`, settles the screen.
   */
  function Commit(s: Screen, o: Outcome): (r: Screen)
    ensures s.effectFired ==> r == s
    ensures !s.effectFired ==> r.effectFired && !r.loading
    ensures !s.effectFired ==> r.creations == if o.Success? then o.creations else s.creations
    ensures !s.effectFired ==> r.toasts == s.toasts + if o.Success? then [] else [ToastFor(o).value]
  {
    if s.effectFired then s else Settle(s.(effectFired := true), o)
  }

  /** The screen after a run of commits, the k-th of which would have resolved with `os[k]` had it fetched. */
  function Commits(s: Screen, os: seq<Outcome>): Screen
    decreases |os|
  {
    if os == [] then s else Commits(Commit(s, os[0]), os[1..])
  }

  /** Once the mount effect has run, later commits change nothing. */
  lemma {:induction false} CommitsAfterEffect(s: Screen, os: seq<Outcome>)
    requires s.effectFired
    ensures Commits(s, os) == s
    decreases |os|
  {
    if os != [] {
      CommitsAfterEffect(Commit(s, os[0]), os[1..]);
    }
  }

  /**
   * Settling happens exactly once per mount: however many commits follow the
   * mount, the screen is the initial one settled by the first fetch only,
   * `loading` is false and at most one toast was raised.
   */
  lemma SettlesOncePerMount(os: seq<Outcome>)
    requires |os| > 0
    ensures Commits(Initial, os) == Settle(Initial.(effectFired := true), os[0])
    ensures !Commits(Initial, os).loading
    ensures |Commits(Initial, os).toasts| == if os[0].Success? then 0 else 1
  {
    CommitsAfterEffect(Commit(Initial, os[0]), os[1..]);
  }

  // ---------------------------------------------------------------------------
  // Render projections
  // ---------------------------------------------------------------------------

  /** `user.publicMetadata` as far as this screen reads it. */
  datatype Metadata = Metadata(plan: Option<string>)
  datatype User = User(publicMetadata: Option<Metadata>)

  /** One `<CreationItem key={item.id} item={item} />` element. */
  datatype ItemView = CreationItem(key: int, item: Creation)

  /** The "Recent Creations" area: the spinner, the item list, or the empty-state message. */
  datatype Recent = Spinner | Items(views: seq<ItemView>) | Empty(text: string)

  /** What the screen shows: the "Total Creations" count, the "Active Plan" label and the recent area. */
  datatype Page = Page(totalCreations: nat, activePlan: string, recent: Recent)

  /** `user?.publicMetadata?.plan === "premium" ? "Premium" : "Free"`. */
  function PlanLabel(user: Option<User>): (r: string)
    ensures r == "Premium" || r == "Free"
    ensures r == "Premium" <==>
      user.Some? && user.value.publicMetadata.Some? && user.value.publicMetadata.value.plan == Some("premium")
  {
    match user
    case Some(User(Some(Metadata(Some(plan))))) => if plan == "premium" then "Premium" else "Free"
    case _ => "Free"
  }

  /** The recent area: a spinner while loading, else one item per creation in order, or the empty message. */
  function RecentCreations(loading: bool, creations: seq<Creation>): (r: Recent)
    ensures r.Spinner? <==> loading
    ensures r.Empty? <==> !loading && |creations| == 0
    ensures r.Empty? ==> r.text == NoCreationsFound
    ensures r.Items? ==> |r.views| == |creations| > 0
    ensures r.Items? ==> forall i :: 0 <= i < |creations| ==> r.views[i] == CreationItem(creations[i].id, creations[i])
  {
    if loading then Spinner
    else if |creations| > 0 then
      Items(seq(|creations|, i requires 0 <= i < |creations| => CreationItem(creations[i].id, creations[i])))
    else Empty(NoCreationsFound)
  }

  /** The page rendered from a screen state and the signed-in user. */
  function Render(s: Screen, user: Option<User>): (p: Page)
    ensures p.totalCreations == |s.creations|
    ensures p.recent.Spinner? <==> s.loading
    ensures p.activePlan == PlanLabel(user)
    ensures p.recent == RecentCreations(s.loading, s.creations)
  {
    Page(|s.creations|, PlanLabel(user), RecentCreations(s.loading, s.creations))
  }

  /**
   * What the settled page shows: after a successful fetch of `items`, the
   * count is `|items|` and the area lists exactly `items` in response order
   * (or the empty message); after a failure, the previous list is kept.
   */
  lemma SettledPage(s: Screen, o: Outcome, user: Option<User>)
    ensures Render(Settle(s, o), user).recent != Spinner
    ensures o.Success? ==> Render(Settle(s, o), user).totalCreations == |o.creations|
    ensures o.Success? && |o.creations| > 0 ==>
      Render(Settle(s, o), user).recent == Items(seq(|o.creations|, i requires 0 <= i < |o.creations| => CreationItem(o.creations[i].id, o.creations[i])))
    ensures o.Success? && o.creations == [] ==> Render(Settle(s, o), user).recent == Empty(NoCreationsFound)
    ensures !o.Success? ==> Render(Settle(s, o), user).totalCreations == |s.creations|
  {
  }

  // ---------------------------------------------------------------------------
  // The component
  // ---------------------------------------------------------------------------

  /**
   * One mounted `Dashboard` component: the `creations` and `loading` state
   * cells that `setCreations` / `setLoading` overwrite, the toasts raised so
   * far, and React's record that the mount effect has run.
   */
  class DashboardView {
    var creations: seq<Creation>
    var loading: bool
    var toasts: seq<string>
    var effectFired: bool

    /** The abstract state of this component. */
    function State(): Screen
      reads this
    {
      Screen(creations, loading, toasts, effectFired)
    }

    /** Mounting: the `useState` initial values. */
    constructor ()
      ensures State() == Initial
    {
      creations := [];
      loading := true;
      toasts := [];
      effectFired := false;
    }

    /** `getDashboardData`, with what its `try` block ended with given as `o`. */
    method GetDashboardData(o: Outcome)
      modifies this
      ensures State() == Settle(old(State()), o)
    {
      match o {
        case Success(items) =>
          creations := items;
        case ServerFail(m) =>
          toasts := toasts + [ServerFailMessage(m)];
        case Thrown(rm, m) =>
          toasts := toasts + [ThrownMessage(rm, m)];
      }
      loading := false;
    }

    /** A commit: the `useEffect(..., [])` callback runs after the first one only. */
    method AfterCommit(o: Outcome)
      modifies this
      ensures State() == Commit(old(State()), o)
    {
      if !effectFired {
        effectFired := true;
        GetDashboardData(o);
      }
    }
  }
}
