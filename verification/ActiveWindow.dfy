/** Daily windows on a wall clock, and the search for the next time inside one.

A time is a number of seconds in UTC.  A zone has one offset before its clock jump and one after it;
with equal offsets it is a zone of constant offset. */
module ActiveWindow {
  import opened Options
  import opened Tables

  const DAY := 86400

  datatype Zone = Zone(jump: int, before: int, after: int)

  /** The clock jumps by less than a day. */
  type OneJump = z: Zone | -DAY < z.after - z.before < DAY witness Zone(0, 0, 0)

  /** A window as it is stored: a start and another end on the clock, or none. */
  type Stored = w: Window | w.Daily? ==> w.start < DAY && w.end < DAY && w.start != w.end witness AllDay

  function Offset(z: Zone, t: int): int {
    if t < z.jump then z.before else z.after
  }

  function Local(z: Zone, t: int): int {
    t + Offset(z, t)
  }

  function Date(wall: int): int {
    wall / DAY
  }

  function Second(wall: int): int {
    wall % DAY
  }

  function Wall(date: int, second: int): int {
    date * DAY + second
  }

  predicate OpenAt(w: Window, wall: int) {
    match w
    case AllDay => true
    case Daily(start, end) =>
      if start < end then start <= Second(wall) < end else Second(wall) >= start || Second(wall) < end
  }

  predicate InWindow(z: Zone, w: Window, t: int) {
    OpenAt(w, Local(z, t))
  }

  function Min(a: int, b: int): int {
    if a < b then a else b
  }

  function Max(a: int, b: int): int {
    if a < b then b else a
  }

  /** A wall clock reading as a time.  The first fold takes the offset before the jump for a reading
      that is met twice or never, the second fold the offset after it. */
  function ToUtc(z: Zone, wall: int, fold: int): int {
    var turn := z.jump + if fold == 0 then Max(z.before, z.after) else Min(z.before, z.after);
    wall - if wall >= turn then z.after else z.before
  }

  // ----- What is searched for

  ghost predicate Earliest(z: Zone, w: Window, at: int, t: int) {
    at <= t && InWindow(z, w, t) && forall u | at <= u < t :: !InWindow(z, w, u)
  }

  /** The clock will go back to before the midnight that began the present date. */
  predicate Replays(z: Zone, at: int) {
    at < z.jump && Date(z.jump + z.after) < Date(at + z.before)
  }

  /** When the search finds the earliest time.  It never tries the date before the present one.  So when
      the clock goes back to that date before the window opens, and the window opens during what is left
      of it, the search finds the opening only at the jump itself, and only if the window starts or ends
      between midnight and the jump. */
  ghost predicate Found(z: Zone, w: Window, at: int) {
    || w.AllDay?
    || !Replays(z, at)
    || (exists u :: at <= u < z.jump && InWindow(z, w, u))
    || (forall u | z.jump <= u < Wall(Date(at + z.before), 0) - z.after :: !InWindow(z, w, u))
    || (InWindow(z, w, z.jump) && Min(w.start, w.end) <= Second(z.jump - 1 + z.before))
  }

  // ----- The times that are tried

  /** The reading is met twice, or never. */
  predicate Straddles(z: Zone, wall: int) {
    z.jump + Min(z.before, z.after) <= wall < z.jump + Max(z.before, z.after)
  }

  function Near(z: Zone, wall: int, opening: bool): set<int> {
    (if opening then {ToUtc(z, wall, 0), ToUtc(z, wall, 1)} else {}) + if Straddles(z, wall) then {z.jump} else {}
  }

  function NearOn(z: Zone, w: Window, date: int): set<int>
    requires w.Daily?
  {
    Near(z, Wall(date, w.start), true) + Near(z, Wall(date, w.end), false)
  }

  function Boundaries(z: Zone, w: Window, date: int, days: nat): set<int>
    requires w.Daily?
  {
    if days == 0 then {} else Boundaries(z, w, date, days - 1) + NearOn(z, w, date + days - 1)
  }

  /** The bisection between the two folds of a reading ends exactly at the jump. */
  method NearTimes(z: OneJump, wall: int, opening: bool) returns (times: set<int>)
    ensures times == Near(z, wall, opening)
  {
    var first, second := ToUtc(z, wall, 0), ToUtc(z, wall, 1);
    times := if opening then {first, second} else {};
    var lower, upper := Min(first, second), Max(first, second);
    if lower != upper {
      var offsetBefore := Offset(z, lower);
      while upper - lower > 1
        invariant lower < z.jump <= upper
      {
        var midpoint := (lower + upper) / 2;
        if Offset(z, midpoint) == offsetBefore { lower := midpoint; } else { upper := midpoint; }
      }
      times := times + {upper};
    }
  }

  /** The boundaries after `at` that lie inside the window. */
  function Candidates(z: Zone, w: Window, at: int): set<int>
    requires w.Daily?
  {
    set b | b in Boundaries(z, w, Date(Local(z, at)), 3) && b > at && InWindow(z, w, b)
  }

  predicate FirstBoundary(z: Zone, w: Window, at: int, t: int)
    requires w.Daily?
  {
    t in Candidates(z, w, at) && forall b | b in Candidates(z, w, at) :: t <= b
  }

  lemma FirstBoundaryExists(z: OneJump, w: Stored, at: int)
    requires w.Daily?
    ensures exists t :: FirstBoundary(z, w, at, t)
  {
    hide Boundaries, InWindow;
    var opening := SomeOpening(z, w, at);
    assert opening in Candidates(z, w, at);
    var least := Least(Candidates(z, w, at), opening);
    assert FirstBoundary(z, w, at, least);
  }

  lemma {:induction false} Least(s: set<int>, b: int) returns (t: int)
    requires b in s
    ensures t in s && forall c | c in s :: t <= c
    decreases s
  {
    if forall c | c in s :: b <= c {
      t := b;
    } else {
      var c :| c in s && c < b;
      t := Least(s - {b}, c);
      assert forall d | d in s :: d == b || d in s - {b};
    }
  }

  /** What the search gives, as a function. */
  ghost function NextTime(z: OneJump, w: Stored, at: int): (t: int)
    ensures at <= t && InWindow(z, w, t)
  {
    if InWindow(z, w, at) then at
    else
      FirstBoundaryExists(z, w, at);
      var t :| FirstBoundary(z, w, at, t);
      t
  }

  method NextActiveTime(z: OneJump, w: Stored, at: int) returns (t: int)
    ensures t == NextTime(z, w, at)
    ensures at <= t && InWindow(z, w, t)
    ensures Earliest(z, w, at, t) <==> InWindow(z, w, at) || Found(z, w, at)
    ensures z.before <= z.after ==> Earliest(z, w, at, t)
  {
    hide Earliest, Found, Near, NearOn;
    if z.before <= z.after { ForwardIsFound(z, w, at); }
    if InWindow(z, w, at) {
      NowIsEarliest(z, w, at);
      return at;
    }
    var date := Date(Local(z, at));
    var boundaries: set<int> := {};
    for days := 0 to 3
      invariant boundaries == Boundaries(z, w, date, days)
    {
      var starts := NearTimes(z, Wall(date + days, w.start), true);
      var ends := NearTimes(z, Wall(date + days, w.end), false);
      boundaries := boundaries + starts + ends;
      AddsDay(z, w, date, days, starts, ends);
    }
    var opening := SomeOpening(z, w, at);
    var least: Option<int> := None;
    var left: set<int> := boundaries;
    while left != {}
      invariant left <= boundaries
      invariant least.Some? ==> least.value in boundaries && least.value > at && InWindow(z, w, least.value)
      invariant forall b | b in boundaries - left && b > at && InWindow(z, w, b) :: least.Some? && least.value <= b
      decreases left
    {
      HasMember(left);
      var b :| b in left;
      left := left - {b};
      if b > at && InWindow(z, w, b) && (least.None? || b < least.value) { least := Some(b); }
    }
    assert opening in boundaries - left;
    t := least.value;
    LeastIsEarliest(z, w, at, t, opening);
    assert FirstBoundary(z, w, at, t);
  }

  lemma HasMember(s: set<int>)
    requires s != {}
    ensures exists b :: b in s
  {
    assert (forall b :: b !in s) ==> s == {};
  }

  lemma NowIsEarliest(z: Zone, w: Window, at: int)
    requires InWindow(z, w, at)
    ensures Earliest(z, w, at, at)
  {
  }

  lemma AddsDay(z: Zone, w: Window, date: int, days: nat, starts: set<int>, ends: set<int>)
    requires w.Daily? && starts == Near(z, Wall(date + days, w.start), true) && ends == Near(z, Wall(date + days, w.end), false)
    ensures Boundaries(z, w, date, days) + starts + ends == Boundaries(z, w, date, days + 1)
  {
  }

  // ----- Readings of the clock

  lemma WallIs(date: int, second: int)
    requires 0 <= second < DAY
    ensures Date(Wall(date, second)) == date && Second(Wall(date, second)) == second
  {
  }

  lemma Opens(w: Stored, wall: int)
    requires w.Daily? && !OpenAt(w, wall - 1) && OpenAt(w, wall)
    ensures wall == Wall(Date(wall), w.start)
  {
  }

  lemma Closes(w: Stored, wall: int)
    requires w.Daily? && OpenAt(w, wall - 1) && !OpenAt(w, wall)
    ensures wall == Wall(Date(wall), w.end)
  {
  }

  /** Between an open and a closed reading there is a change. */
  lemma {:induction false} Changes(w: Window, a: int, b: int) returns (wall: int)
    requires a < b && OpenAt(w, a) != OpenAt(w, b)
    ensures a < wall <= b && OpenAt(w, wall - 1) == OpenAt(w, a) && OpenAt(w, wall) == OpenAt(w, b)
    decreases b - a
  {
    hide OpenAt;
    if OpenAt(w, b - 1) == OpenAt(w, a) { wall := b; } else { wall := Changes(w, a, b - 1); }
  }

  lemma {:induction false} FirstActive(z: Zone, w: Window, at: int, u: int) returns (t: int)
    requires at <= u && InWindow(z, w, u)
    ensures Earliest(z, w, at, t) && t <= u
    decreases u - at
  {
    hide InWindow;
    if InWindow(z, w, at) { t := at; } else { t := FirstActive(z, w, at + 1, u); }
  }

  lemma InBoundaries(z: Zone, w: Window, date: int, day: int, t: int)
    requires w.Daily? && date <= day < date + 3 && t in NearOn(z, w, day)
    ensures t in Boundaries(z, w, date, 3)
  {
    hide NearOn;
    assert Boundaries(z, w, date, 1) == NearOn(z, w, date);
    assert Boundaries(z, w, date, 2) == NearOn(z, w, date) + NearOn(z, w, date + 1);
  }

  /** The opening on the next date, or on the one after it. */
  predicate NextOpening(z: Zone, w: Window, at: int, t: int)
    requires w.Daily?
  {
    && t > at && InWindow(z, w, t) && t == ToUtc(z, Local(z, t), 1)
    && (|| Local(z, t) == Wall(Date(Local(z, at)) + 1, w.start)
        || (z.after > z.before && Local(z, t) == Wall(Date(Local(z, at)) + 2, w.start)))
  }

  /** One of the next two openings by the clock takes place. */
  lemma SomeOpening(z: OneJump, w: Stored, at: int) returns (t: int)
    requires w.Daily?
    ensures NextOpening(z, w, at, t) && t in Boundaries(z, w, Date(Local(z, at)), 3)
  {
    var date := Date(Local(z, at));
    var wall := Wall(date + 1, w.start);
    if z.after > z.before && Straddles(z, wall) { wall := Wall(date + 2, w.start); }
    t := ToUtc(z, wall, 1);
    WallIs(date + 1, w.start);
    WallIs(date + 2, w.start);
    assert Local(z, t) == wall;
    assert t in NearOn(z, w, Date(wall));
    InBoundaries(z, w, date, Date(wall), t);
  }

  // ----- Where the first opening lies

  /** Unless the clock goes back over midnight first, the window opens on one of the dates tried. */
  lemma OpeningDate(z: OneJump, w: Stored, at: int, t: int, opening: int)
    requires w.Daily? && !InWindow(z, w, at) && Earliest(z, w, at, t) && NextOpening(z, w, at, opening)
    ensures Date(Local(z, t)) <= Date(Local(z, at)) + if z.after > z.before then 2 else 1
    ensures !Replays(z, at) || t < z.jump || t >= Wall(Date(Local(z, at)), 0) - z.after ==> Date(Local(z, at)) <= Date(Local(z, t))
  {
    hide OpenAt;
    var date := Date(Local(z, at));
    WallIs(date + 1, w.start);
    WallIs(date + 2, w.start);
    var wall := Local(z, opening);
    if t < z.jump <= opening && wall - z.before < z.jump {
      assert Local(z, wall - z.before) == wall && at <= wall - z.before;
      assert InWindow(z, w, wall - z.before);
    }
  }

  lemma SteadyOpening(z: OneJump, w: Stored, t: int)
    requires w.Daily? && !InWindow(z, w, t - 1) && InWindow(z, w, t) && Local(z, t - 1) == Local(z, t) - 1
    ensures t in NearOn(z, w, Date(Local(z, t)))
  {
    Opens(w, Local(z, t));
  }

  /** The clock jumps into the window: over its start, or back from behind its end. */
  lemma JumpOpening(z: OneJump, w: Stored) returns (wall: int)
    requires w.Daily? && z.before != z.after && !InWindow(z, w, z.jump - 1) && InWindow(z, w, z.jump)
    ensures z.jump in NearOn(z, w, Date(wall))
    ensures z.before < z.after ==> z.jump - 1 + z.before < wall <= z.jump + z.after
    ensures z.before > z.after ==> z.jump + z.after < wall < z.jump + z.before
  {
    if z.before < z.after {
      wall := Changes(w, z.jump - 1 + z.before, z.jump + z.after);
      Opens(w, wall);
    } else {
      assert z.jump + z.after != z.jump - 1 + z.before;
      wall := Changes(w, z.jump + z.after, z.jump - 1 + z.before);
      Closes(w, wall);
    }
  }

  lemma OnlyOneEarliest(z: Zone, w: Window, at: int, t: int, u: int)
    requires Earliest(z, w, at, t) && Earliest(z, w, at, u)
    ensures t == u
  {
  }

  /** Over midnight, the opening at the jump is tried because the window starts or ends before it. */
  lemma ReplayIsTried(z: OneJump, w: Stored, at: int, t: int)
    requires w.Daily? && !InWindow(z, w, at) && Earliest(z, w, at, t) && Found(z, w, at)
    requires Replays(z, at) && z.jump <= t < Wall(Date(at + z.before), 0) - z.after
    ensures t in NearOn(z, w, Date(at + z.before))
  {
    hide OpenAt;
    var date := Date(at + z.before);
    var second := Min(w.start, w.end);
    assert InWindow(z, w, z.jump) && second <= Second(z.jump - 1 + z.before);
    assert t == z.jump;
    assert Straddles(z, Wall(date, second));
  }

  lemma FoundIsTried(z: OneJump, w: Stored, at: int, t: int, opening: int)
    requires w.Daily? && !InWindow(z, w, at) && Earliest(z, w, at, t) && NextOpening(z, w, at, opening) && Found(z, w, at)
    ensures t in Boundaries(z, w, Date(Local(z, at)), 3)
  {
    hide OpenAt, NearOn, Boundaries, Found;
    var date := Date(Local(z, at));
    OpeningDate(z, w, at, t, opening);
    if Replays(z, at) && z.jump <= t < Wall(date, 0) - z.after {
      ReplayIsTried(z, w, at, t);
      InBoundaries(z, w, date, date, t);
    } else if Local(z, t - 1) == Local(z, t) - 1 {
      SteadyOpening(z, w, t);
      InBoundaries(z, w, date, Date(Local(z, t)), t);
    } else {
      var wall := JumpOpening(z, w);
      InBoundaries(z, w, date, Date(wall), t);
    }
  }

  /** A time after the jump that reads as the date before is tried on no later date. */
  lemma ReplayIsLost(z: OneJump, w: Stored, at: int, t: int, day: int)
    requires w.Daily? && !InWindow(z, w, at) && Earliest(z, w, at, t) && !Found(z, w, at)
    requires Date(Local(z, at)) <= day
    ensures t !in NearOn(z, w, day)
  {
    hide OpenAt, Earliest;
    LostLies(z, w, at, t);
    var date := Date(at + z.before);
    if day > date { assert Wall(day, 0) >= Wall(date + 1, 0); }
  }

  lemma LostLies(z: OneJump, w: Stored, at: int, t: int)
    requires w.Daily? && !InWindow(z, w, at) && Earliest(z, w, at, t) && !Found(z, w, at)
    ensures Replays(z, at) && z.jump <= t < Wall(Date(at + z.before), 0) - z.after
    ensures t == z.jump ==> Min(w.start, w.end) > Second(z.jump - 1 + z.before)
  {
    hide OpenAt;
  }

  lemma LostIsNotTried(z: OneJump, w: Stored, at: int, t: int)
    requires w.Daily? && !InWindow(z, w, at) && Earliest(z, w, at, t) && !Found(z, w, at)
    ensures t !in Boundaries(z, w, Date(Local(z, at)), 3)
  {
    hide OpenAt, NearOn, Earliest, Found;
    var date := Date(Local(z, at));
    ReplayIsLost(z, w, at, t, date);
    ReplayIsLost(z, w, at, t, date + 1);
    ReplayIsLost(z, w, at, t, date + 2);
    assert Boundaries(z, w, date, 1) == NearOn(z, w, date);
    assert Boundaries(z, w, date, 2) == NearOn(z, w, date) + NearOn(z, w, date + 1);
  }

  lemma LeastIsEarliest(z: OneJump, w: Stored, at: int, t: int, opening: int)
    requires w.Daily? && !InWindow(z, w, at) && t > at && InWindow(z, w, t) && NextOpening(z, w, at, opening)
    requires t in Boundaries(z, w, Date(Local(z, at)), 3)
    requires forall b | b in Boundaries(z, w, Date(Local(z, at)), 3) && b > at && InWindow(z, w, b) :: t <= b
    ensures Earliest(z, w, at, t) <==> Found(z, w, at)
  {
    hide InWindow, Boundaries, Found;
    var first := FirstActive(z, w, at, opening);
    assert first > at;
    if Found(z, w, at) {
      FoundIsTried(z, w, at, first, opening);
    } else {
      LostIsNotTried(z, w, at, first);
      if Earliest(z, w, at, t) { OnlyOneEarliest(z, w, at, t, first); }
    }
  }

  // ----- What this means

  /** With a constant offset, or a clock that only ever goes forward, the search finds the earliest
      time; so it does after the jump, and whenever the clock does not go back over midnight. */
  lemma ForwardIsFound(z: Zone, w: Window, at: int)
    requires z.before <= z.after || z.jump <= at || Date(z.jump - 1 + z.before) == Date(z.jump + z.after)
    ensures Found(z, w, at)
  {
  }

  /** At one minute past midnight the clock goes back an hour and the window opens at half past eleven:
      the search from just before passes over the half hour that is left of the day. */
  lemma MissedEvening()
    ensures var z: Zone := Zone(60, 0, -3600);
            var w := Daily(84600, 86340);
            !InWindow(z, w, 30) && !Found(z, w, 30) && Earliest(z, w, 30, 1800)
  {
    assert InWindow(Zone(60, 0, -3600), Daily(84600, 86340), 1800);
  }
}
