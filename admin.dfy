/** The admin dashboard's reservation tab: the list loaded from the backend,
    the optimistic status change, and the two counters above the list. */
module Admin {
  import opened Types
  import opened Seqs

  /** The reservations endpoint's reply: an object, or a `null` body, which
      the API helper passes on unchanged. */
  datatype ReservationsResponse =
    | ReservationsResponse(success: bool, data: Option<seq<Reservation>>)
    | NullReservations

  /** The statistics endpoint's reply, as far as the reservations tab is
      concerned: an object, or a `null` body. */
  datatype StatsResponse = StatsObject | NullStats

  /** The status endpoint's reply; the dashboard never looks at it. */
  datatype StatusReply = StatusReply(success: bool, error: Option<string>)

  /** The request the dashboard sends after updating its own list. */
  datatype StatusUpdate = StatusUpdate(id: Option<string>, status: Status)

  /** The list after `handleStatusChange(id, status)`: every reservation
      whose id equals `id` takes the new status, the others stay as they
      were, and the list keeps its length and order. An absent id matches
      every reservation that has no id either. */
  function SetStatus(rs: seq<Reservation>, id: Option<string>, status: Status): (r: seq<Reservation>)
    ensures |r| == |rs|
    ensures forall i :: 0 <= i < |rs| ==>
              r[i].status == (if rs[i].id == id then status else rs[i].status)
    ensures forall i :: 0 <= i < |rs| ==> r[i] == rs[i].(status := r[i].status)
  {
    if rs == [] then []
    else SetStatus(rs[..|rs| - 1], id, status) + [Restatus(rs[|rs| - 1], id, status)]
  }

  /** The callback `SetStatus` maps over the list. */
  function Restatus(r: Reservation, id: Option<string>, status: Status): Reservation {
    if r.id == id then r.(status := status) else r
  }

  /** |A - B| = |A| - |B| when B is part of A. */
  lemma CardDifference(a: set<int>, b: set<int>)
    requires b <= a
    ensures |a - b| == |a| - |b|
  {
    assert a == (a - b) + b;
    assert (a - b) !! b;
  }

  function IsPending(r: Reservation): bool {
    r.status == Pending
  }

  function OnDate(today: string): Reservation -> bool {
    (r: Reservation) => r.date == today
  }

  /** The "pending" counter: how many reservations are pending. */
  function PendingCount(rs: seq<Reservation>): (n: nat)
    ensures n == |set i | 0 <= i < |rs| && rs[i].status == Pending|
  {
    FilterCount(rs, IsPending);
    assert IndicesWhere(rs, IsPending) == set i | 0 <= i < |rs| && rs[i].status == Pending;
    |Filter(rs, IsPending)|
  }

  /** The "today" counter: how many reservations are for the ISO date
      `today`. */
  function TodayCount(rs: seq<Reservation>, today: string): (n: nat)
    ensures n == |set i | 0 <= i < |rs| && rs[i].date == today|
  {
    FilterCount(rs, OnDate(today));
    assert IndicesWhere(rs, OnDate(today)) == set i | 0 <= i < |rs| && rs[i].date == today;
    |Filter(rs, OnDate(today))|
  }

  /** A second change of the same id overrides the first. */
  lemma SetStatusTwice(rs: seq<Reservation>, id: Option<string>, first: Status, second: Status)
    ensures SetStatus(SetStatus(rs, id, first), id, second) == SetStatus(rs, id, second)
  {
    var a, b := SetStatus(SetStatus(rs, id, first), id, second), SetStatus(rs, id, second);
    forall i | 0 <= i < |rs|
      ensures a[i] == b[i]
    {
      var m := SetStatus(rs, id, first);
      assert m[i] == rs[i].(status := m[i].status);
    }
  }

  /** A status change touches no date, so the "today" counter stays put. */
  lemma SetStatusKeepsTodayCount(rs: seq<Reservation>, id: Option<string>, status: Status, today: string)
    ensures TodayCount(SetStatus(rs, id, status), today) == TodayCount(rs, today)
  {
    var r := SetStatus(rs, id, status);
    forall i | 0 <= i < |rs|
      ensures r[i].date == rs[i].date
    {
      assert r[i] == rs[i].(status := r[i].status);
    }
    assert (set i | 0 <= i < |r| && r[i].date == today) == (set i | 0 <= i < |rs| && rs[i].date == today);
  }

  /** Moving the matching reservations to a status other than pending
      takes exactly those of them that were pending off the counter. */
  lemma SetStatusPendingCount(rs: seq<Reservation>, id: Option<string>, status: Status)
    requires status != Pending
    ensures PendingCount(SetStatus(rs, id, status)) ==
            PendingCount(rs) - |set i | 0 <= i < |rs| && rs[i].id == id && rs[i].status == Pending|
  {
    var r := SetStatus(rs, id, status);
    var before := set i | 0 <= i < |rs| && rs[i].status == Pending;
    var matched := set i | 0 <= i < |rs| && rs[i].id == id && rs[i].status == Pending;
    var after := set i | 0 <= i < |r| && r[i].status == Pending;
    forall i | 0 <= i < |rs|
      ensures r[i].status == Pending <==> rs[i].status == Pending && rs[i].id != id
    {
    }
    assert after == before - matched;
    CardDifference(before, matched);
  }

  class AdminDashboard {
    var reservations: seq<Reservation>
    var loading: bool

    /** Mounting: no reservations yet, loading. */
    constructor ()
      ensures reservations == [] && loading
    {
      reservations := [];
      loading := true;
    }

    /** `loadData`: on a successful reply the list is the reply's data (or
        empty when there is none); otherwise the list is left as it was.
        Reading `success` of a `null` reply throws, so `setLoading(false)`
        is never reached and the dashboard keeps loading; this happens for
        a `null` reservations reply (before the list is touched) and for a
        `null` statistics reply (after it). */
    method LoadData(res: ReservationsResponse, stats: StatsResponse)
      modifies this
      ensures reservations ==
                if res.ReservationsResponse? && res.success then res.data.GetOr([])
                else old(reservations)
      ensures loading <==> res.NullReservations? || stats.NullStats?
    {
      loading := true;
      if res.NullReservations? {
        return;
      }
      if res.success {
        reservations := res.data.GetOr([]);
      }
      if stats.NullStats? {
        return;
      }
      loading := false;
    }

    /** `handleStatusChange`: change the list first, then send the update;
        whatever the backend replies, the local change stays. */
    method HandleStatusChange(id: Option<string>, newStatus: Status, reply: StatusReply)
      returns (request: StatusUpdate)
      modifies this
      ensures reservations == SetStatus(old(reservations), id, newStatus)
      ensures loading == old(loading)
      ensures request == StatusUpdate(id, newStatus)
    {
      reservations := SetStatus(reservations, id, newStatus);
      request := StatusUpdate(id, newStatus);
    }
  }

  /** A dashboard whose reservations fetch fails, or returns `null`, has an
      empty list. */
  method FailedLoadShowsNothing(res: ReservationsResponse, stats: StatsResponse)
    returns (shown: seq<Reservation>)
    requires !(res.ReservationsResponse? && res.success)
    ensures shown == []
  {
    var dashboard := new AdminDashboard();
    dashboard.LoadData(res, stats);
    shown := dashboard.reservations;
  }
}
