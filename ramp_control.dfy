/**
 * The RAMP driver: building one use case per day from the PUE appliance
 * entries, running the use cases into per-appliance minute profiles, and
 * expanding start-up events into per-second peak-power profiles.
 */
module RampControl {
  import opened Wrappers
  import opened Series
  import opened RampWindows

  // ---------------------------------------------------------------------
  // Inputs and RAMP's records
  // ---------------------------------------------------------------------

  /** One day's column of an appliance's weekly preferences. */
  datatype DayColumn = DayColumn(
    hours: seq<bool>,            // old format: whether each of the first rows equals 1
    window1: WindowSpec,         // new format: start, end and variabilities in hours
    window2: WindowSpec,
    window3: WindowSpec,
    usageTime: real,             // 'Usage time' (hours)
    preferredUsageTime: real,    // 'Preferred usage time' (hours)
    possibleUsageTime: real,     // 'Possible usage time' (hours)
    usageTimeVariability: real,  // 'Usage time variability'
    usageWindowsVariability: real) // 'Usage windows variability'

  /** The fields of one pue_dict entry that the driver reads. */
  datatype ApplianceData = ApplianceData(
    user: string,
    number: int,
    nominalPower: real,
    p1: real, t1: real, t2: real,    // new format duty cycle
    startUpPower: real, steadyStatePower: real, dutyCycleDuration: real, // old format duty cycle
    durationVariability: real,
    weeklyPreferences: map<string, DayColumn>,
    usageTimeVariation: map<int, real>, // monthly 'Usage time variation', by month
    startUpPeak: real,
    startUpDuration: int)

  /** pue_dict: appliance names in insertion order and their entries. */
  datatype PueDict = PueDict(names: seq<string>, entries: map<string, ApplianceData>)

  predicate WellFormedPue(pue: PueDict)
  {
    forall i :: 0 <= i < |pue.names| ==> pue.names[i] in pue.entries
  }

  /** The arguments given to RAMP's add_appliance (duty cycle 1). */
  datatype Appliance = Appliance(
    name: string,
    number: int,
    power: real,
    p11: real, t11: real, p12: real, t12: real, rc1: real,
    funcTime: real,
    timeFractionRandomVariability: real,
    numWindows: nat,
    windows: Windows,
    randomVarW: real)

  /** A RAMP user with its appliances, and a use case made of users. */
  datatype User = User(name: string, appliances: seq<Appliance>)
  datatype UseCase = UseCase(users: seq<User>)

  /** The errors the driver raises. */
  datatype RampError =
    | MissingDay(appliance: string)                      // KeyError on weekly_preferences[day]
    | MissingMonth(appliance: string)                    // KeyError on the monthly variation
    | WindowFailure(appliance: string, cause: WindowError) // UserWarning or randint's ValueError
    | UnknownAppliance(appliance: string)                // KeyError on a dict keyed by appliance
    | LengthMismatch                                     // ValueError building a frame
    | StartUpTooLong(appliance: string)                  // randint's ValueError: duration above 60 s

  // ---------------------------------------------------------------------
  // Grouping appliances by user
  // ---------------------------------------------------------------------

  /** An appliance and the user it is attached to. */
  datatype Assigned = Assigned(user: string, appliance: Appliance)

  function IndexOfUser(users: seq<User>, u: string): (r: Option<nat>)
    ensures r.Some? ==> r.value < |users| && users[r.value].name == u
    ensures r.None? ==> forall k :: 0 <= k < |users| ==> users[k].name != u
  {
    if |users| == 0 then None
    else if users[|users| - 1].name == u then Some(|users| - 1)
    else IndexOfUser(users[..|users| - 1], u)
  }

  /** Attach an appliance to user u, creating the user when it does not exist yet. */
  function AddToUser(users: seq<User>, u: string, a: Appliance): seq<User>
  {
    var k := IndexOfUser(users, u);
    if k.Some? then users[k.value := User(u, users[k.value].appliances + [a])]
    else users + [User(u, [a])]
  }

  /** users_dict after attaching every appliance in order. */
  function GroupByUser(ps: seq<Assigned>): seq<User>
  {
    if |ps| == 0 then []
    else AddToUser(GroupByUser(ps[..|ps| - 1]), ps[|ps| - 1].user, ps[|ps| - 1].appliance)
  }

  /** The appliances assigned to user u, in order. */
  function AppliancesOf(ps: seq<Assigned>, u: string): seq<Appliance>
  {
    if |ps| == 0 then []
    else AppliancesOf(ps[..|ps| - 1], u) + (if ps[|ps| - 1].user == u then [ps[|ps| - 1].appliance] else [])
  }

  predicate DistinctUsers(users: seq<User>)
  {
    forall i, j :: 0 <= i < j < |users| ==> users[i].name != users[j].name
  }

  /** Some user is named u. */
  predicate HasUser(users: seq<User>, u: string)
  {
    exists k :: 0 <= k < |users| && users[k].name == u
  }

  /** Some appliance was assigned to user u. */
  predicate WasAssigned(ps: seq<Assigned>, u: string)
  {
    exists i :: 0 <= i < |ps| && ps[i].user == u
  }

  /** Attaching keeps the users' names and appliances, adding `a` to u's list only. */
  lemma AddToUserFacts(users: seq<User>, u: string, a: Appliance)
    requires DistinctUsers(users)
    ensures var after := AddToUser(users, u, a);
      DistinctUsers(after)
      && |users| <= |after|
      && (forall x :: HasUser(after, x) <==> HasUser(users, x) || x == u)
      && (forall k :: 0 <= k < |users| ==> after[k].name == users[k].name)
      && (forall k :: |users| <= k < |after| ==> after[k].name == u)
      && (forall k :: 0 <= k < |after| ==>
            after[k].appliances == (if k < |users| then users[k].appliances else []) + (if after[k].name == u then [a] else []))
  {
    var after := AddToUser(users, u, a);
    var idx := IndexOfUser(users, u);
    if idx.Some? {
      assert after[idx.value].name == u;
    } else {
      assert after[|users|].name == u;
    }
    forall x ensures HasUser(after, x) <==> HasUser(users, x) || x == u {
      if HasUser(users, x) {
        var k :| 0 <= k < |users| && users[k].name == x;
        assert after[k].name == x;
      }
    }
  }

  lemma WasAssignedSnoc(ps: seq<Assigned>, p: Assigned, u: string)
    ensures WasAssigned(ps + [p], u) <==> WasAssigned(ps, u) || p.user == u
  {
    if WasAssigned(ps, u) {
      var i :| 0 <= i < |ps| && ps[i].user == u;
      assert (ps + [p])[i] == ps[i];
    }
    if p.user == u {
      assert (ps + [p])[|ps|] == p;
    }
  }

  /** Exactly one user per distinct user name: the users are the names appliances were assigned to. */
  lemma {:induction false} GroupByUserNames(ps: seq<Assigned>)
    ensures DistinctUsers(GroupByUser(ps))
    ensures forall u :: HasUser(GroupByUser(ps), u) <==> WasAssigned(ps, u)
  {
    if |ps| > 0 {
      var init := ps[..|ps| - 1];
      var last := ps[|ps| - 1];
      GroupByUserNames(init);
      assert GroupByUser(ps) == AddToUser(GroupByUser(init), last.user, last.appliance);
      AddToUserFacts(GroupByUser(init), last.user, last.appliance);
      assert ps == init + [last];
      forall u ensures WasAssigned(ps, u) <==> WasAssigned(init, u) || last.user == u {
        WasAssignedSnoc(init, last, u);
      }
    }
  }

  /** Each user holds exactly the appliances assigned to it, in order. */
  lemma {:induction false} GroupByUserAppliances(ps: seq<Assigned>)
    ensures forall k :: 0 <= k < |GroupByUser(ps)| ==> GroupByUser(ps)[k].appliances == AppliancesOf(ps, GroupByUser(ps)[k].name)
  {
    if |ps| > 0 {
      var init := ps[..|ps| - 1];
      var last := ps[|ps| - 1];
      GroupByUserAppliances(init);
      GroupByUserNames(init);
      var before := GroupByUser(init);
      var after := GroupByUser(ps);
      assert after == AddToUser(before, last.user, last.appliance);
      AddToUserFacts(before, last.user, last.appliance);
      forall k | 0 <= k < |after| ensures after[k].appliances == AppliancesOf(ps, after[k].name) {
        assert AppliancesOf(ps, after[k].name) ==
          AppliancesOf(init, after[k].name) + (if last.user == after[k].name then [last.appliance] else []);
        if k >= |before| {
          assert after[k].name == last.user;
          if AppliancesOf(init, last.user) != [] {
            AppliancesOfNonEmpty(init, last.user);
            assert false;
          }
        }
      }
    }
  }

  /** A user with appliances was assigned one of them. */
  lemma {:induction false} AppliancesOfNonEmpty(ps: seq<Assigned>, u: string)
    requires AppliancesOf(ps, u) != []
    ensures WasAssigned(ps, u)
  {
    var init := ps[..|ps| - 1];
    assert ps == init + [ps[|ps| - 1]];
    WasAssignedSnoc(init, ps[|ps| - 1], u);
    if ps[|ps| - 1].user != u {
      AppliancesOfNonEmpty(init, u);
    }
  }

  // ---------------------------------------------------------------------
  // Building the appliances of a use case
  // ---------------------------------------------------------------------

  /** The appliances paired with their users, in pue_dict order. */
  function Assign(pue: PueDict, apps: seq<Appliance>): seq<Assigned>
    requires WellFormedPue(pue) && |apps| <= |pue.names|
  {
    seq(|apps|, i requires 0 <= i < |apps| => Assigned(pue.entries[pue.names[i]].user, apps[i]))
  }

  /** The new format fails for an entry without the day, with a negative variability, or without the month. */
  predicate NewFails(d: ApplianceData, day: string, month: int)
  {
    day !in d.weeklyPreferences
    || DrawFails(d.weeklyPreferences[day].window1, d.weeklyPreferences[day].window2, d.weeklyPreferences[day].window3)
    || month !in d.usageTimeVariation
  }

  /** The error of a failing entry: the day lookup comes first, then the draws, then the month lookup. */
  function NewError(name: string, d: ApplianceData, day: string, month: int): RampError
    requires NewFails(d, day, month)
  {
    if day !in d.weeklyPreferences then MissingDay(name)
    else if DrawFails(d.weeklyPreferences[day].window1, d.weeklyPreferences[day].window2, d.weeklyPreferences[day].window3)
    then WindowFailure(name, EmptyRange)
    else MissingMonth(name)
  }

  /**
   * The appliance add_use_case creates: duty cycle P1 for t1 then P1 for t2,
   * the day's usage time in minutes scaled by the month's variation, the
   * drawn windows counted, and no further window variability.
   */
  predicate NewAppliance(a: Appliance, name: string, d: ApplianceData, day: string, month: int)
  {
    day in d.weeklyPreferences && month in d.usageTimeVariation
    && var c := d.weeklyPreferences[day];
    ValidDraw(c.window1, c.window2, c.window3, Drawn(a.windows, a.numWindows))
    && a == Appliance(name, d.number, d.nominalPower, d.p1, d.t1, d.p1, d.t2, d.durationVariability,
                      c.usageTime * 60.0 * d.usageTimeVariation[month], c.usageTimeVariability,
                      a.numWindows, a.windows, 0.0)
  }

  predicate NewAppliances(pue: PueDict, day: string, month: int, apps: seq<Appliance>)
    requires WellFormedPue(pue)
  {
    |apps| == |pue.names|
    && forall i :: 0 <= i < |apps| ==> NewAppliance(apps[i], pue.names[i], pue.entries[pue.names[i]], day, month)
  }

  /** The appliance add_use_case_old creates, or the error it raises. */
  function OldAppliance(name: string, d: ApplianceData, day: string, month: int, preferred: bool): Result<Appliance, RampError>
  {
    if day !in d.weeklyPreferences then Failure(MissingDay(name))
    else
      var c := d.weeklyPreferences[day];
      var w := PreferredWindows(c.hours);
      if w.Failure? then Failure(WindowFailure(name, w.error))
      else if month !in d.usageTimeVariation then Failure(MissingMonth(name))
      else
        var minutes := if preferred then c.preferredUsageTime * 60.0 else c.possibleUsageTime * 60.0;
        Success(Appliance(name, d.number, d.nominalPower, d.startUpPower, 1.0, d.steadyStatePower,
                          d.dutyCycleDuration - 1.0, d.durationVariability,
                          minutes * d.usageTimeVariation[month], c.usageTimeVariability,
                          1, w.value, c.usageWindowsVariability))
  }

  /** The first n appliances of add_use_case_old with their users, or the first error. */
  function OldAssigned(pue: PueDict, n: nat, day: string, month: int, preferred: bool): Result<seq<Assigned>, RampError>
    requires WellFormedPue(pue) && n <= |pue.names|
  {
    if n == 0 then Success([])
    else
      var prev := OldAssigned(pue, n - 1, day, month, preferred);
      if prev.Failure? then prev
      else
        var d := pue.entries[pue.names[n - 1]];
        var a := OldAppliance(pue.names[n - 1], d, day, month, preferred);
        if a.Failure? then Failure(a.error) else Success(prev.value + [Assigned(d.user, a.value)])
  }

  /** The order of a dict's keys after assigning key `name`. */
  function Inserted(names: seq<string>, name: string): seq<string>
  {
    if name in names then names else names + [name]
  }

  predicate Distinct(names: seq<string>)
  {
    forall i, j :: 0 <= i < j < |names| ==> names[i] != names[j]
  }

  // ---------------------------------------------------------------------
  // The driver
  // ---------------------------------------------------------------------

  /** RampControl: the use cases built so far, by name in insertion order. */
  class RampControl {
    var names: seq<string>
    var useCases: map<string, UseCase>

    ghost predicate Valid()
      reads this
    {
      Distinct(names) && forall n :: n in useCases <==> n in names
    }

    constructor()
      ensures Valid() && names == [] && useCases == map[]
    {
      names := [];
      useCases := map[];
    }

    /** `self.ramp_use_cases[name] = use_case`. */
    method Store(name: string, uc: UseCase)
      requires Valid()
      modifies this
      ensures Valid()
      ensures names == Inserted(old(names), name)
      ensures useCases == old(useCases)[name := uc]
    {
      names := Inserted(names, name);
      useCases := useCases[name := uc];
    }

    /**
     * add_use_case: the use case of the entries' appliances with jittered
     * windows is stored under `name`; the result is the appliance names in
     * pue_dict order. A failing entry leaves the use cases as they were.
     */
    method AddUseCase(name: string, pue: PueDict, day: string, month: int) returns (r: Result<seq<string>, RampError>)
      requires Valid() && WellFormedPue(pue)
      modifies this
      ensures Valid()
      ensures r.Failure? <==> exists i :: 0 <= i < |pue.names| && NewFails(pue.entries[pue.names[i]], day, month)
      ensures r.Failure? ==> names == old(names) && useCases == old(useCases)
      ensures r.Success? ==>
        r.value == pue.names && names == Inserted(old(names), name)
        && exists apps :: NewAppliances(pue, day, month, apps)
             && useCases == old(useCases)[name := UseCase(GroupByUser(Assign(pue, apps)))]
    {
      var uc := NewUseCase(pue, day, month);
      if uc.Failure? {
        return Failure(uc.error);
      }
      Store(name, uc.value);
      return Success(pue.names);
    }

    /**
     * add_use_case_old: the use case of the entries' appliances with scanned
     * windows is stored under `name`; the result is the appliance names in
     * pue_dict order. A failing entry leaves the use cases as they were.
     */
    method AddUseCaseOld(name: string, pue: PueDict, day: string, month: int, preferred: bool)
      returns (r: Result<seq<string>, RampError>)
      requires Valid() && WellFormedPue(pue)
      modifies this
      ensures Valid()
      ensures r.Failure? <==> OldAssigned(pue, |pue.names|, day, month, preferred).Failure?
      ensures r.Failure? ==>
        r.error == OldAssigned(pue, |pue.names|, day, month, preferred).error
        && names == old(names) && useCases == old(useCases)
      ensures r.Success? ==>
        r.value == pue.names && names == Inserted(old(names), name)
        && useCases == old(useCases)[name := UseCase(GroupByUser(OldAssigned(pue, |pue.names|, day, month, preferred).value))]
    {
      var uc := OldUseCase(pue, day, month, preferred);
      if uc.Failure? {
        return Failure(uc.error);
      }
      Store(name, uc.value);
      return Success(pue.names);
    }

    /**
     * run_use_cases: every appliance's profile is extended, use case by use
     * case, user by user, by the day RAMP generates for each of its
     * occurrences (or by an idle day without windows). An occurrence not in
     * the list is a KeyError; profiles whose length differs from the time
     * index cannot form the frame.
     */
    method RunUseCases(appliancesList: seq<string>, timeseries: nat, dailyUse: (string, string) -> DayProfile)
      returns (r: Result<LoadProfiles, RampError>)
      requires Valid()
      ensures r.Failure? <==>
        !CasesKnown(names, useCases, set a | a in appliancesList)
        || exists a :: a in appliancesList && |CasesProfile(names, useCases, a, dailyUse)| != timeseries
      ensures r.Failure? && !CasesKnown(names, useCases, set a | a in appliancesList) ==> r.error.UnknownAppliance?
      ensures r.Failure? && CasesKnown(names, useCases, set a | a in appliancesList) ==> r.error == LengthMismatch
      ensures r.Success? ==>
        r.value.columns == Dedup(appliancesList) && r.value.rows == timeseries
        && r.value.data.Keys == set a | a in appliancesList
        && forall a :: a in appliancesList ==> a in r.value.data && r.value.data[a] == CasesProfile(names, useCases, a, dailyUse)
    {
      var keys := set a | a in appliancesList;
      var extended := ExtendByCases(names, useCases, keys, dailyUse);
      if extended.Failure? {
        return Failure(extended.error);
      }
      var profiles := extended.value;
      if exists a :: a in appliancesList && |profiles[a]| != timeseries {
        return Failure(LengthMismatch);
      }
      return Success(LoadProfiles(Dedup(appliancesList), profiles, timeseries));
    }

    /**
     * calculate_peak_power_timeseries: each appliance's start-up events are
     * expanded into seconds with its start-up peak and duration, the totals
     * are summed per second, and each minute keeps the maximum of its 60
     * totals. An appliance missing from pue_dict is a KeyError, an event of
     * an appliance whose start-up lasts over 60 seconds a ValueError, and a
     * seconds index of the wrong length cannot be set.
     */
    method CalculatePeakPowerTimeseries(profiles: LoadProfiles, pue: map<string, ApplianceData>, secondsTimeseries: nat)
      returns (r: Result<PeakProfiles, RampError>)
      requires WellFormedProfiles(profiles)
      ensures r.Failure? <==>
        (exists k :: 0 <= k < |profiles.columns| && PeakFails(profiles, pue, profiles.columns[k]))
        || secondsTimeseries != SecondsOf(profiles)
      ensures r.Success? ==> PeakResult(profiles, pue, r.value)
    {
      var expanded := ExpandAll(profiles, pue);
      if expanded.Failure? {
        return Failure(expanded.error);
      }
      var data := expanded.value;
      if secondsTimeseries != SecondsOf(profiles) {
        return Failure(LengthMismatch);
      }
      var total := seq(secondsTimeseries, s requires 0 <= s < secondsTimeseries => ColumnSum(profiles.columns, data, s));
      return Success(PeakProfiles(profiles.columns, data, total, MinuteMaxima(total, MinutesOf(profiles))));
    }
  }

  /** One iteration of add_use_case: the appliance of one entry, with its windows drawn. */
  method NewApplianceOf(appliance: string, data: ApplianceData, day: string, month: int) returns (r: Result<Appliance, RampError>)
    ensures r.Failure? <==> NewFails(data, day, month)
    ensures r.Failure? ==> r.error == NewError(appliance, data, day, month)
    ensures r.Success? ==> NewAppliance(r.value, appliance, data, day, month)
  {
    if day !in data.weeklyPreferences {
      return Failure(MissingDay(appliance));
    }
    var c := data.weeklyPreferences[day];
    var drawn := DrawWindows(c.window1, c.window2, c.window3);
    if drawn.Failure? {
      return Failure(WindowFailure(appliance, drawn.error));
    }
    if month !in data.usageTimeVariation {
      return Failure(MissingMonth(appliance));
    }
    var funcTime := c.usageTime * 60.0 * data.usageTimeVariation[month];
    var a := Appliance(appliance, data.number, data.nominalPower, data.p1, data.t1, data.p1, data.t2,
                       data.durationVariability, funcTime, c.usageTimeVariability,
                       drawn.value.count, drawn.value.windows, 0.0);
    return Success(a);
  }

  /**
   * The use case add_use_case builds: for each entry in order, the day's
   * windows are drawn and an appliance is attached to the entry's user; the
   * first failing entry's error is raised.
   */
  method NewUseCase(pue: PueDict, day: string, month: int) returns (r: Result<UseCase, RampError>)
    requires WellFormedPue(pue)
    ensures r.Failure? <==> exists i :: 0 <= i < |pue.names| && NewFails(pue.entries[pue.names[i]], day, month)
    ensures r.Failure? ==>
      exists i :: 0 <= i < |pue.names| && NewFails(pue.entries[pue.names[i]], day, month)
        && (forall j :: 0 <= j < i ==> !NewFails(pue.entries[pue.names[j]], day, month))
        && r.error == NewError(pue.names[i], pue.entries[pue.names[i]], day, month)
    ensures r.Success? ==>
      exists apps :: NewAppliances(pue, day, month, apps) && r.value == UseCase(GroupByUser(Assign(pue, apps)))
  {
    var users: seq<User> := [];
    var apps: seq<Appliance> := [];
    var i := 0;
    while i < |pue.names|
      invariant 0 <= i <= |pue.names| && |apps| == i
      invariant forall j :: 0 <= j < i ==> !NewFails(pue.entries[pue.names[j]], day, month)
      invariant forall j :: 0 <= j < i ==> NewAppliance(apps[j], pue.names[j], pue.entries[pue.names[j]], day, month)
      invariant users == GroupByUser(Assign(pue, apps))
    {
      var appliance := pue.names[i];
      var data := pue.entries[appliance];
      var a := NewApplianceOf(appliance, data, day, month);
      if a.Failure? {
        return Failure(a.error);
      }
      users := AddToUser(users, data.user, a.value);
      assert Assign(pue, apps + [a.value]) == Assign(pue, apps) + [Assigned(data.user, a.value)];
      apps := apps + [a.value];
      i := i + 1;
    }
    return Success(UseCase(users));
  }

  /** One iteration of add_use_case_old: the appliance of one entry, with its windows scanned. */
  method OldApplianceOf(appliance: string, data: ApplianceData, day: string, month: int, preferred: bool)
    returns (r: Result<Appliance, RampError>)
    ensures r == OldAppliance(appliance, data, day, month, preferred)
  {
    if day !in data.weeklyPreferences {
      return Failure(MissingDay(appliance));
    }
    var c := data.weeklyPreferences[day];
    var windows := ScanPreferredWindows(c.hours);
    if windows.Failure? {
      return Failure(WindowFailure(appliance, windows.error));
    }
    var funcTime := if preferred then c.preferredUsageTime * 60.0 else c.possibleUsageTime * 60.0;
    if month !in data.usageTimeVariation {
      return Failure(MissingMonth(appliance));
    }
    funcTime := funcTime * data.usageTimeVariation[month];
    var a := Appliance(appliance, data.number, data.nominalPower, data.startUpPower, 1.0,
                       data.steadyStatePower, data.dutyCycleDuration - 1.0, data.durationVariability,
                       funcTime, c.usageTimeVariability, 1, windows.value, c.usageWindowsVariability);
    assert day in data.weeklyPreferences && month in data.usageTimeVariation;
    assert windows == PreferredWindows(data.weeklyPreferences[day].hours);
    assert OldAppliance(appliance, data, day, month, preferred).Success?;
    assert OldAppliance(appliance, data, day, month, preferred).value.funcTime == funcTime;
    return Success(a);
  }

  /**
   * The use case add_use_case_old builds: for each entry in order, the day's
   * hourly preferences are scanned into windows and an appliance is attached
   * to the entry's user; the first failing entry's error is raised.
   */
  method OldUseCase(pue: PueDict, day: string, month: int, preferred: bool) returns (r: Result<UseCase, RampError>)
    requires WellFormedPue(pue)
    ensures r.Failure? <==> OldAssigned(pue, |pue.names|, day, month, preferred).Failure?
    ensures r.Failure? ==> r.error == OldAssigned(pue, |pue.names|, day, month, preferred).error
    ensures r.Success? ==> r.value == UseCase(GroupByUser(OldAssigned(pue, |pue.names|, day, month, preferred).value))
  {
    var users: seq<User> := [];
    ghost var ps: seq<Assigned> := [];
    var i := 0;
    while i < |pue.names|
      invariant 0 <= i <= |pue.names|
      invariant OldAssigned(pue, i, day, month, preferred) == Success(ps)
      invariant users == GroupByUser(ps)
    {
      var appliance := pue.names[i];
      var data := pue.entries[appliance];
      var a := OldApplianceOf(appliance, data, day, month, preferred);
      if a.Failure? {
        OldFailureStays(pue, i + 1, |pue.names|, day, month, preferred);
        return Failure(a.error);
      }
      OldStep(pue, i, ps, day, month, preferred);
      users := AddToUser(users, data.user, a.value);
      ps := ps + [Assigned(data.user, a.value)];
      i := i + 1;
    }
    return Success(UseCase(users));
  }

  /** A successful entry extends the successful prefix by its appliance. */
  lemma OldStep(pue: PueDict, i: nat, ps: seq<Assigned>, day: string, month: int, preferred: bool)
    requires WellFormedPue(pue) && i < |pue.names|
    requires OldAssigned(pue, i, day, month, preferred) == Success(ps)
    requires OldAppliance(pue.names[i], pue.entries[pue.names[i]], day, month, preferred).Success?
    ensures OldAssigned(pue, i + 1, day, month, preferred)
      == Success(ps + [Assigned(pue.entries[pue.names[i]].user,
                                OldAppliance(pue.names[i], pue.entries[pue.names[i]], day, month, preferred).value)])
  {
  }

  /** Once entry n - 1 fails, add_use_case_old fails with its error however many entries follow. */
  lemma {:induction false} OldFailureStays(pue: PueDict, n: nat, m: nat, day: string, month: int, preferred: bool)
    requires WellFormedPue(pue) && 0 < n <= m <= |pue.names|
    requires OldAssigned(pue, n - 1, day, month, preferred).Success?
    requires OldAppliance(pue.names[n - 1], pue.entries[pue.names[n - 1]], day, month, preferred).Failure?
    ensures OldAssigned(pue, m, day, month, preferred)
      == Failure(OldAppliance(pue.names[n - 1], pue.entries[pue.names[n - 1]], day, month, preferred).error)
    decreases m
  {
    if m > n {
      OldFailureStays(pue, n, m - 1, day, month, preferred);
    }
  }
  // ---------------------------------------------------------------------
  // Running the use cases
  // ---------------------------------------------------------------------

  /** A day of zeros: an appliance without windows that day does not run. */
  const IdleDay: seq<real> := seq(1440, _ => 0.0)

  /** A profile RAMP generates for one day, minute by minute. */
  type DayProfile = s: seq<real> | |s| == 1440 witness IdleDay

  /** The minute profiles of the appliances, as a frame over `rows` time steps. */
  datatype LoadProfiles = LoadProfiles(columns: seq<string>, data: map<string, seq<real>>, rows: nat)

  /** A list's distinct entries in order of first occurrence (the keys of a dict built from it). */
  function Dedup(xs: seq<string>): (r: seq<string>)
    ensures Distinct(r) && forall x :: x in r <==> x in xs
  {
    if |xs| == 0 then []
    else
      var init := Dedup(xs[..|xs| - 1]);
      assert forall x :: x in xs <==> x in xs[..|xs| - 1] || x == xs[|xs| - 1];
      if xs[|xs| - 1] in init then init else init + [xs[|xs| - 1]]
  }

  /** The day an occurrence of an appliance contributes to its profile in use case `uc`. */
  function ApplianceDay(uc: string, a: Appliance, dailyUse: (string, string) -> DayProfile): seq<real>
  {
    if a.numWindows > 0 then dailyUse(uc, a.name) else IdleDay
  }

  /** What a user's appliances contribute to the profile of appliance `app`. */
  function AppsProfile(uc: string, apps: seq<Appliance>, app: string, dailyUse: (string, string) -> DayProfile): seq<real>
  {
    if |apps| == 0 then []
    else
      AppsProfile(uc, apps[..|apps| - 1], app, dailyUse)
      + (if apps[|apps| - 1].name == app then ApplianceDay(uc, apps[|apps| - 1], dailyUse) else [])
  }

  /** What a use case's users contribute to the profile of appliance `app`. */
  function UsersProfile(uc: string, users: seq<User>, app: string, dailyUse: (string, string) -> DayProfile): seq<real>
  {
    if |users| == 0 then []
    else UsersProfile(uc, users[..|users| - 1], app, dailyUse) + AppsProfile(uc, users[|users| - 1].appliances, app, dailyUse)
  }

  /** The profile of appliance `app` over the use cases, in order. */
  function CasesProfile(cases: seq<string>, useCases: map<string, UseCase>, app: string, dailyUse: (string, string) -> DayProfile): seq<real>
    requires forall c :: c in cases ==> c in useCases
  {
    if |cases| == 0 then []
    else
      var uc := cases[|cases| - 1];
      CasesProfile(cases[..|cases| - 1], useCases, app, dailyUse) + UsersProfile(uc, useCases[uc].users, app, dailyUse)
  }

  predicate AppsKnown(apps: seq<Appliance>, keys: set<string>)
  {
    forall j :: 0 <= j < |apps| ==> apps[j].name in keys
  }

  predicate UsersKnown(users: seq<User>, keys: set<string>)
  {
    forall k :: 0 <= k < |users| ==> AppsKnown(users[k].appliances, keys)
  }

  /** Every appliance of every use case is one of `keys`. */
  predicate CasesKnown(cases: seq<string>, useCases: map<string, UseCase>, keys: set<string>)
    requires forall c :: c in cases ==> c in useCases
  {
    forall i :: 0 <= i < |cases| ==> UsersKnown(useCases[cases[i]].users, keys)
  }

  /** One user's loop of run_use_cases: each appliance's profile is extended by its day. */
  method ExtendByAppliances(profiles: map<string, seq<real>>, uc: string, apps: seq<Appliance>, dailyUse: (string, string) -> DayProfile)
    returns (r: Result<map<string, seq<real>>, RampError>)
    ensures r.Failure? <==> !AppsKnown(apps, profiles.Keys)
    ensures r.Failure? ==> r.error.UnknownAppliance?
    ensures r.Success? ==>
      r.value.Keys == profiles.Keys
      && forall a :: a in profiles ==> r.value[a] == profiles[a] + AppsProfile(uc, apps, a, dailyUse)
  {
    var current := profiles;
    var j := 0;
    while j < |apps|
      invariant 0 <= j <= |apps|
      invariant AppsKnown(apps[..j], profiles.Keys)
      invariant current.Keys == profiles.Keys
      invariant forall a :: a in current ==> current[a] == profiles[a] + AppsProfile(uc, apps[..j], a, dailyUse)
    {
      var appliance := apps[j];
      assert apps[..j + 1][..j] == apps[..j];
      if appliance.name !in current {
        return Failure(UnknownAppliance(appliance.name));
      }
      var day := if appliance.numWindows > 0 then dailyUse(uc, appliance.name) else IdleDay;
      current := current[appliance.name := current[appliance.name] + day];
      j := j + 1;
    }
    assert apps[..j] == apps;
    return Success(current);
  }

  /** One use case's loop of run_use_cases: the users' appliances in order. */
  method ExtendByUsers(profiles: map<string, seq<real>>, uc: string, users: seq<User>, dailyUse: (string, string) -> DayProfile)
    returns (r: Result<map<string, seq<real>>, RampError>)
    ensures r.Failure? <==> !UsersKnown(users, profiles.Keys)
    ensures r.Failure? ==> r.error.UnknownAppliance?
    ensures r.Success? ==>
      r.value.Keys == profiles.Keys
      && forall a :: a in profiles ==> r.value[a] == profiles[a] + UsersProfile(uc, users, a, dailyUse)
  {
    var current := profiles;
    var k := 0;
    while k < |users|
      invariant 0 <= k <= |users|
      invariant UsersKnown(users[..k], profiles.Keys)
      invariant current.Keys == profiles.Keys
      invariant forall a :: a in current ==> current[a] == profiles[a] + UsersProfile(uc, users[..k], a, dailyUse)
    {
      var extended := ExtendByAppliances(current, uc, users[k].appliances, dailyUse);
      UsersStep(uc, users, k, profiles.Keys, dailyUse);
      if extended.Failure? {
        return Failure(extended.error);
      }
      current := extended.value;
      k := k + 1;
    }
    assert users[..k] == users;
    return Success(current);
  }

  /** The facts one more user adds to the prefix of a use case's users. */
  lemma UsersStep(uc: string, users: seq<User>, k: nat, keys: set<string>, dailyUse: (string, string) -> DayProfile)
    requires k < |users|
    ensures UsersKnown(users[..k + 1], keys) <==> UsersKnown(users[..k], keys) && AppsKnown(users[k].appliances, keys)
    ensures !AppsKnown(users[k].appliances, keys) ==> !UsersKnown(users, keys)
    ensures forall a ::
      UsersProfile(uc, users[..k + 1], a, dailyUse) == UsersProfile(uc, users[..k], a, dailyUse) + AppsProfile(uc, users[k].appliances, a, dailyUse)
  {
    assert users[..k + 1][..k] == users[..k];
  }

  /** The loop of run_use_cases over the use cases, in insertion order, starting from empty profiles. */
  method ExtendByCases(cases: seq<string>, useCases: map<string, UseCase>, keys: set<string>, dailyUse: (string, string) -> DayProfile)
    returns (r: Result<map<string, seq<real>>, RampError>)
    requires forall c :: c in cases ==> c in useCases
    ensures r.Failure? <==> !CasesKnown(cases, useCases, keys)
    ensures r.Failure? ==> r.error.UnknownAppliance?
    ensures r.Success? ==>
      r.value.Keys == keys && forall a :: a in keys ==> r.value[a] == CasesProfile(cases, useCases, a, dailyUse)
  {
    var profiles: map<string, seq<real>> := map a | a in keys :: [];
    var i := 0;
    while i < |cases|
      invariant 0 <= i <= |cases|
      invariant CasesKnown(cases[..i], useCases, keys)
      invariant profiles.Keys == keys
      invariant forall a :: a in profiles ==> profiles[a] == CasesProfile(cases[..i], useCases, a, dailyUse)
    {
      var name := cases[i];
      var extended := ExtendByUsers(profiles, name, useCases[name].users, dailyUse);
      CasesStep(cases, useCases, i, keys, dailyUse);
      if extended.Failure? {
        return Failure(extended.error);
      }
      profiles := extended.value;
      i := i + 1;
    }
    assert cases[..i] == cases;
    return Success(profiles);
  }

  /** The facts one more use case adds to the prefix of the use cases. */
  lemma CasesStep(cases: seq<string>, useCases: map<string, UseCase>, i: nat, keys: set<string>, dailyUse: (string, string) -> DayProfile)
    requires i < |cases| && forall c :: c in cases ==> c in useCases
    ensures CasesKnown(cases[..i + 1], useCases, keys)
      <==> CasesKnown(cases[..i], useCases, keys) && UsersKnown(useCases[cases[i]].users, keys)
    ensures !UsersKnown(useCases[cases[i]].users, keys) ==> !CasesKnown(cases, useCases, keys)
    ensures forall a ::
      CasesProfile(cases[..i + 1], useCases, a, dailyUse)
        == CasesProfile(cases[..i], useCases, a, dailyUse) + UsersProfile(cases[i], useCases[cases[i]].users, a, dailyUse)
  {
    assert cases[..i + 1][..i] == cases[..i];
  }

  /** How often appliance `app` occurs among a user's appliances, a use case's users, the use cases. */
  function AppsCount(apps: seq<Appliance>, app: string): nat
  {
    if |apps| == 0 then 0 else AppsCount(apps[..|apps| - 1], app) + (if apps[|apps| - 1].name == app then 1 else 0)
  }

  function UsersCount(users: seq<User>, app: string): nat
  {
    if |users| == 0 then 0 else UsersCount(users[..|users| - 1], app) + AppsCount(users[|users| - 1].appliances, app)
  }

  function CasesCount(cases: seq<string>, useCases: map<string, UseCase>, app: string): nat
    requires forall c :: c in cases ==> c in useCases
  {
    if |cases| == 0 then 0
    else CasesCount(cases[..|cases| - 1], useCases, app) + UsersCount(useCases[cases[|cases| - 1]].users, app)
  }

  lemma {:induction false} AppsProfileLength(uc: string, apps: seq<Appliance>, app: string, dailyUse: (string, string) -> DayProfile)
    ensures |AppsProfile(uc, apps, app, dailyUse)| == 1440 * AppsCount(apps, app)
  {
    if |apps| > 0 {
      AppsProfileLength(uc, apps[..|apps| - 1], app, dailyUse);
    }
  }

  lemma {:induction false} UsersProfileLength(uc: string, users: seq<User>, app: string, dailyUse: (string, string) -> DayProfile)
    ensures |UsersProfile(uc, users, app, dailyUse)| == 1440 * UsersCount(users, app)
  {
    if |users| > 0 {
      UsersProfileLength(uc, users[..|users| - 1], app, dailyUse);
      AppsProfileLength(uc, users[|users| - 1].appliances, app, dailyUse);
    }
  }

  /** Each occurrence of an appliance contributes exactly one day of 1440 minutes. */
  lemma {:induction false} CasesProfileLength(cases: seq<string>, useCases: map<string, UseCase>, app: string, dailyUse: (string, string) -> DayProfile)
    requires forall c :: c in cases ==> c in useCases
    ensures |CasesProfile(cases, useCases, app, dailyUse)| == 1440 * CasesCount(cases, useCases, app)
  {
    if |cases| > 0 {
      CasesProfileLength(cases[..|cases| - 1], useCases, app, dailyUse);
      UsersProfileLength(cases[|cases| - 1], useCases[cases[|cases| - 1]].users, app, dailyUse);
    }
  }

  /**
   * When an appliance occurs exactly once in every use case, its profile
   * holds one day per use case, and day d is what use case d contributes.
   */
  lemma {:induction false} OneDayPerUseCase(cases: seq<string>, useCases: map<string, UseCase>, app: string, dailyUse: (string, string) -> DayProfile, d: nat)
    requires forall c :: c in cases ==> c in useCases
    requires forall i :: 0 <= i < |cases| ==> UsersCount(useCases[cases[i]].users, app) == 1
    requires d < |cases|
    ensures |CasesProfile(cases, useCases, app, dailyUse)| == 1440 * |cases|
    ensures CasesProfile(cases, useCases, app, dailyUse)[1440 * d..1440 * d + 1440]
      == UsersProfile(cases[d], useCases[cases[d]].users, app, dailyUse)
  {
    var init := cases[..|cases| - 1];
    var last := cases[|cases| - 1];
    var before := CasesProfile(init, useCases, app, dailyUse);
    var day := UsersProfile(last, useCases[last].users, app, dailyUse);
    UsersProfileLength(last, useCases[last].users, app, dailyUse);
    assert |day| == 1440;
    if d == |cases| - 1 {
      if |init| > 0 {
        OneDayPerUseCase(init, useCases, app, dailyUse, 0);
      }
      assert |before| == 1440 * d;
    } else {
      OneDayPerUseCase(init, useCases, app, dailyUse, d);
      assert (before + day)[1440 * d..1440 * d + 1440] == before[1440 * d..1440 * d + 1440];
      assert init[d] == cases[d];
    }
  }
  // ---------------------------------------------------------------------
  // Start-up peaks
  // ---------------------------------------------------------------------

  /** A frame of minute profiles: distinct columns, each with `rows` values. */
  ghost predicate WellFormedProfiles(p: LoadProfiles)
  {
    Distinct(p.columns)
    && (forall c :: c in p.data <==> c in p.columns)
    && forall c :: c in p.data ==> |p.data[c]| == p.rows
  }

  /** The number of minutes of the peak frame: none without appliances. */
  function MinutesOf(p: LoadProfiles): nat
  {
    if |p.columns| == 0 then 0 else p.rows
  }

  /** The number of seconds of the peak frame: 60 per minute. */
  function SecondsOf(p: LoadProfiles): nat
  {
    60 * MinutesOf(p)
  }

  /** The per-second peak profiles, their per-second total and its per-minute maximum. */
  datatype PeakProfiles = PeakProfiles(columns: seq<string>, data: map<string, seq<real>>, total: seq<real>, minuteMax: seq<real>)

  /** RAMP marks usage windows with 0.001; cleaning maps it to 0. */
  function Cleaned(x: real): real
  {
    if x == 0.001 then 0.0 else x
  }

  /** The start-up events: a minute whose previous cleaned value is not zero (or that has none) becomes 0. */
  function StartUps(col: seq<real>): (r: seq<real>)
    ensures |r| == |col|
  {
    seq(|col|, i requires 0 <= i < |col| => if i == 0 || Cleaned(col[i - 1]) != 0.0 then 0.0 else Cleaned(col[i]))
  }

  /**
   * A minute is a start-up event exactly when its value is neither 0 nor
   * 0.001 and the previous minute's value is 0 or 0.001; the event keeps the
   * minute's value, and the first minute is never one.
   */
  lemma StartUpEvents(col: seq<real>, i: nat)
    requires i < |col|
    ensures StartUps(col)[i] != 0.0 <==>
      i > 0 && (col[i - 1] == 0.0 || col[i - 1] == 0.001) && col[i] != 0.0 && col[i] != 0.001
    ensures StartUps(col)[i] != 0.0 ==> StartUps(col)[i] == col[i]
  {
  }

  /** A minute of 60 seconds with `duration` seconds of `peak` from second `offset`, zeros elsewhere. */
  function Burst(offset: int, peak: real, duration: int): seq<real>
  {
    seq(60, s => if offset <= s < offset + duration then peak else 0.0)
  }

  /** The seconds of one minute: all zeros without an event, a burst at an admissible offset with one. */
  predicate MinuteFor(m: seq<real>, event: real, peak: real, duration: int)
  {
    if event == 0.0 then m == Burst(0, peak, 0)
    else exists offset :: 0 <= offset <= 60 - duration && m == Burst(offset, peak, duration)
  }

  /** The minutes laid end to end. */
  function Flatten(ms: seq<seq<real>>): seq<real>
  {
    if |ms| == 0 then [] else Flatten(ms[..|ms| - 1]) + ms[|ms| - 1]
  }

  /** The seconds of a whole profile: minute i's seconds at positions 60 i to 60 i + 59. */
  ghost predicate ExpandedFrom(seconds: seq<real>, events: seq<real>, peak: real, duration: int)
  {
    exists ms :: |ms| == |events| && (forall i :: 0 <= i < |ms| ==> MinuteFor(ms[i], events[i], peak, duration))
      && seconds == Flatten(ms)
  }

  /** An appliance of the frame fails when pue_dict lacks it, or when it has an event and a start-up over 60 s. */
  predicate PeakFails(p: LoadProfiles, pue: map<string, ApplianceData>, c: string)
    requires WellFormedProfiles(p)
  {
    c in p.data
    && (c !in pue || (pue[c].startUpDuration > 60 && exists i :: 0 <= i < |p.data[c]| && StartUps(p.data[c])[i] != 0.0))
  }

  /**
   * The per-appliance loop of calculate_peak_power_timeseries: each minute
   * becomes 60 seconds, all zero without an event, and with an event a
   * burst at an offset drawn from [0, 60 - duration].
   */
  method ExpandStartUps(appliance: string, events: seq<real>, peak: real, duration: int)
    returns (r: Result<seq<real>, RampError>)
    ensures r.Failure? <==> duration > 60 && exists i :: 0 <= i < |events| && events[i] != 0.0
    ensures r.Failure? ==> r.error == StartUpTooLong(appliance)
    ensures r.Success? ==> ExpandedFrom(r.value, events, peak, duration)
  {
    var peakPowerArray := new seq<real>[|events|];
    var i := 0;
    while i < |events|
      invariant 0 <= i <= |events|
      invariant duration > 60 ==> forall j :: 0 <= j < i ==> events[j] == 0.0
      invariant forall j :: 0 <= j < i ==> MinuteFor(peakPowerArray[j], events[j], peak, duration)
    {
      if events[i] == 0.0 {
        peakPowerArray[i] := Burst(0, peak, 0);
      } else {
        var minute := new real[60](_ => 0.0);
        var randStart := RandInt(0, 60 - duration);
        if randStart.Failure? {
          return Failure(StartUpTooLong(appliance));
        }
        var offset := randStart.value;
        forall s | offset <= s < offset + duration {
          minute[s] := peak;
        }
        assert minute[..] == Burst(offset, peak, duration);
        peakPowerArray[i] := minute[..];
      }
      i := i + 1;
    }
    assert |peakPowerArray[..]| == |events|;
    return Success(Flatten(peakPowerArray[..]));
  }

  /** The per-second sum over the columns (`sum(axis='columns')`). */
  function ColumnSum(columns: seq<string>, data: map<string, seq<real>>, s: nat): real
  {
    if |columns| == 0 then 0.0
    else
      var c := columns[|columns| - 1];
      ColumnSum(columns[..|columns| - 1], data, s) + (if c in data && s < |data[c]| then data[c][s] else 0.0)
  }

  /** Each minute's maximum of its 60 per-second totals (`resample('min').max()`). */
  function MinuteMaxima(total: seq<real>, minutes: nat): (r: seq<real>)
    requires 60 * minutes <= |total|
    ensures |r| == minutes
  {
    seq(minutes, m requires 0 <= m < minutes => Max(total[60 * m..60 * m + 60]))
  }

  /** The loop over the appliances of calculate_peak_power_timeseries, stopping at the first failing one. */
  method ExpandAll(profiles: LoadProfiles, pue: map<string, ApplianceData>) returns (r: Result<map<string, seq<real>>, RampError>)
    requires WellFormedProfiles(profiles)
    ensures r.Failure? <==> exists k :: 0 <= k < |profiles.columns| && PeakFails(profiles, pue, profiles.columns[k])
    ensures r.Success? ==>
      r.value.Keys == profiles.data.Keys && forall c :: c in r.value ==> ExpandedColumn(profiles, pue, c, r.value[c])
  {
    var data: map<string, seq<real>> := map[];
    var k := 0;
    while k < |profiles.columns|
      invariant 0 <= k <= |profiles.columns|
      invariant forall j :: 0 <= j < k ==> !PeakFails(profiles, pue, profiles.columns[j])
      invariant forall c :: c in data <==> c in profiles.columns[..k]
      invariant forall c :: c in data ==> ExpandedColumn(profiles, pue, c, data[c])
    {
      assert profiles.columns[..k + 1] == profiles.columns[..k] + [profiles.columns[k]];
      var appliance := profiles.columns[k];
      var expanded := ExpandColumn(profiles, pue, appliance);
      if expanded.Failure? {
        return Failure(expanded.error);
      }
      data := data[appliance := expanded.value];
      k := k + 1;
    }
    assert profiles.columns[..k] == profiles.columns;
    return Success(data);
  }

  /** One iteration of the per-appliance loop: look up the appliance's start-up and expand its events. */
  method ExpandColumn(profiles: LoadProfiles, pue: map<string, ApplianceData>, appliance: string)
    returns (r: Result<seq<real>, RampError>)
    requires WellFormedProfiles(profiles) && appliance in profiles.data
    ensures r.Failure? <==> PeakFails(profiles, pue, appliance)
    ensures r.Success? ==> ExpandedColumn(profiles, pue, appliance, r.value)
  {
    if appliance !in pue {
      return Failure(UnknownAppliance(appliance));
    }
    var events := StartUps(profiles.data[appliance]);
    r := ExpandStartUps(appliance, events, pue[appliance].startUpPeak, pue[appliance].startUpDuration);
  }

  /** Column c of the peak frame: the expansion of c's start-up events with c's start-up peak and duration. */
  ghost predicate ExpandedColumn(profiles: LoadProfiles, pue: map<string, ApplianceData>, c: string, seconds: seq<real>)
  {
    c in profiles.data && c in pue
    && ExpandedFrom(seconds, StartUps(profiles.data[c]), pue[c].startUpPeak, pue[c].startUpDuration)
  }

  /**
   * The peak frame of a minute frame: one expanded column per appliance, the
   * per-second total over the columns, and each minute's maximum total.
   */
  ghost predicate PeakResult(profiles: LoadProfiles, pue: map<string, ApplianceData>, out: PeakProfiles)
  {
    out.columns == profiles.columns
    && out.data.Keys == profiles.data.Keys
    && (forall c :: c in out.data ==> ExpandedColumn(profiles, pue, c, out.data[c]))
    && |out.total| == SecondsOf(profiles)
    && (forall s :: 0 <= s < |out.total| ==> out.total[s] == ColumnSum(profiles.columns, out.data, s))
    && out.minuteMax == MinuteMaxima(out.total, MinutesOf(profiles))
  }

  lemma {:induction false} FlattenLength(ms: seq<seq<real>>)
    requires forall j :: 0 <= j < |ms| ==> |ms[j]| == 60
    ensures |Flatten(ms)| == 60 * |ms|
  {
    if |ms| > 0 {
      FlattenLength(ms[..|ms| - 1]);
    }
  }

  /** Second t of minute i of the flattened minutes is second t of minute i. */
  lemma {:induction false} FlattenMinutes(ms: seq<seq<real>>, i: nat, t: nat)
    requires forall j :: 0 <= j < |ms| ==> |ms[j]| == 60
    requires i < |ms| && t < 60
    ensures |Flatten(ms)| == 60 * |ms|
    ensures Flatten(ms)[60 * i + t] == ms[i][t]
  {
    FlattenLength(ms);
    var init := ms[..|ms| - 1];
    FlattenLength(init);
    if i < |ms| - 1 {
      FlattenMinutes(init, i, t);
    }
  }

  /** Each minute of an expanded profile is 60 seconds of zeros or of one burst. */
  lemma ExpandedMinute(seconds: seq<real>, events: seq<real>, peak: real, duration: int, m: nat)
    requires ExpandedFrom(seconds, events, peak, duration) && m < |events|
    ensures |seconds| == 60 * |events|
    ensures MinuteFor(seconds[60 * m..60 * m + 60], events[m], peak, duration)
  {
    var ms :| |ms| == |events| && (forall i :: 0 <= i < |ms| ==> MinuteFor(ms[i], events[i], peak, duration))
      && seconds == Flatten(ms);
    FlattenLength(ms);
    forall t | 0 <= t < 60 ensures seconds[60 * m + t] == ms[m][t] {
      FlattenMinutes(ms, m, t);
    }
    assert seconds[60 * m..60 * m + 60] == ms[m];
  }

  /** An event minute of an expanded profile is a burst at an admissible offset. */
  lemma EventMinute(seconds: seq<real>, events: seq<real>, peak: real, duration: int, m: nat) returns (offset: int)
    requires ExpandedFrom(seconds, events, peak, duration) && m < |events| && events[m] != 0.0
    ensures |seconds| == 60 * |events|
    ensures 0 <= offset <= 60 - duration
    ensures forall t :: 0 <= t < 60 ==> seconds[60 * m + t] == Burst(offset, peak, duration)[t]
  {
    ExpandedMinute(seconds, events, peak, duration, m);
    offset :| 0 <= offset <= 60 - duration && seconds[60 * m..60 * m + 60] == Burst(offset, peak, duration);
    forall t | 0 <= t < 60 ensures seconds[60 * m + t] == Burst(offset, peak, duration)[t] {
      assert seconds[60 * m..60 * m + 60][t] == seconds[60 * m + t];
    }
  }

  lemma {:induction false} ColumnSumZero(columns: seq<string>, data: map<string, seq<real>>, s: nat)
    requires forall c :: c in columns && c in data && s < |data[c]| ==> data[c][s] == 0.0
    ensures ColumnSum(columns, data, s) == 0.0
  {
    if |columns| > 0 {
      ColumnSumZero(columns[..|columns| - 1], data, s);
    }
  }

  /** When only column c is non-zero at second s, the total is c's value. */
  lemma {:induction false} ColumnSumSingle(columns: seq<string>, data: map<string, seq<real>>, s: nat, c: string)
    requires Distinct(columns) && c in columns && c in data && s < |data[c]|
    requires forall c' :: c' in columns && c' != c && c' in data && s < |data[c']| ==> data[c'][s] == 0.0
    ensures ColumnSum(columns, data, s) == data[c][s]
  {
    var init := columns[..|columns| - 1];
    var last := columns[|columns| - 1];
    if last == c {
      assert c !in init;
      ColumnSumZero(init, data, s);
    } else {
      assert c in init;
      ColumnSumSingle(init, data, s, c);
    }
  }

  /** The maximum of a burst of a non-negative peak lasting at least a second is the peak. */
  lemma BurstMax(offset: int, peak: real, duration: int)
    requires 0 <= offset <= 60 - duration && duration >= 1 && peak >= 0.0
    ensures Max(Burst(offset, peak, duration)) == peak
  {
    assert Burst(offset, peak, duration)[offset] == peak;
  }

  /** A minute's maximum when its 60 totals are known. */
  lemma MinuteOfTotal(total: seq<real>, minutes: nat, m: nat, minute: seq<real>)
    requires 60 * minutes <= |total| && m < minutes && |minute| == 60
    requires forall t :: 0 <= t < 60 ==> total[60 * m + t] == minute[t]
    ensures MinuteMaxima(total, minutes)[m] == Max(minute)
  {
    assert total[60 * m..60 * m + 60] == minute;
  }

  /** A second of a minute in which column c has no start-up event is 0 in c. */
  lemma QuietColumnSecond(profiles: LoadProfiles, pue: map<string, ApplianceData>, out: PeakProfiles, m: nat, t: nat, c: string)
    requires WellFormedProfiles(profiles) && PeakResult(profiles, pue, out)
    requires m < profiles.rows && t < 60 && c in profiles.data
    requires StartUps(profiles.data[c])[m] == 0.0
    ensures c in out.data && |out.data[c]| == 60 * profiles.rows && out.data[c][60 * m + t] == 0.0
  {
    assert ExpandedColumn(profiles, pue, c, out.data[c]);
    ExpandedMinute(out.data[c], StartUps(profiles.data[c]), pue[c].startUpPeak, pue[c].startUpDuration, m);
    assert out.data[c][60 * m..60 * m + 60][t] == 0.0;
  }

  /** In a minute without start-up events every second's total is 0. */
  lemma QuietSecond(profiles: LoadProfiles, pue: map<string, ApplianceData>, out: PeakProfiles, m: nat, t: nat)
    requires WellFormedProfiles(profiles) && PeakResult(profiles, pue, out)
    requires |profiles.columns| > 0 && m < profiles.rows && t < 60
    requires forall c :: c in profiles.data ==> StartUps(profiles.data[c])[m] == 0.0
    ensures 60 * m + t < |out.total| && out.total[60 * m + t] == 0.0
  {
    forall c | c in profiles.columns && c in out.data && 60 * m + t < |out.data[c]|
      ensures out.data[c][60 * m + t] == 0.0
    {
      QuietColumnSecond(profiles, pue, out, m, t, c);
    }
    ColumnSumZero(profiles.columns, out.data, 60 * m + t);
  }

  /** A minute without any start-up event has a maximum total peak of 0. */
  lemma QuietMinuteHasNoPeak(profiles: LoadProfiles, pue: map<string, ApplianceData>, out: PeakProfiles, m: nat)
    requires WellFormedProfiles(profiles) && PeakResult(profiles, pue, out)
    requires |profiles.columns| > 0 && m < profiles.rows
    requires forall c :: c in profiles.data ==> StartUps(profiles.data[c])[m] == 0.0
    ensures |out.minuteMax| == profiles.rows
    ensures out.minuteMax[m] == 0.0
  {
    var zeros := Burst(0, 0.0, 0);
    forall t | 0 <= t < 60 ensures out.total[60 * m + t] == zeros[t] {
      QuietSecond(profiles, pue, out, m, t);
    }
    MinuteOfTotal(out.total, MinutesOf(profiles), m, zeros);
    assert zeros[0] == 0.0;
  }

  /** At a second of a minute in which only column c has an event, the total is c's value. */
  lemma SingleColumnSecond(profiles: LoadProfiles, pue: map<string, ApplianceData>, out: PeakProfiles, m: nat, t: nat, c: string)
    requires WellFormedProfiles(profiles) && PeakResult(profiles, pue, out)
    requires |profiles.columns| > 0 && m < profiles.rows && t < 60 && c in profiles.data
    requires forall c' :: c' in profiles.data && c' != c ==> StartUps(profiles.data[c'])[m] == 0.0
    ensures c in out.data && |out.data[c]| == 60 * profiles.rows
    ensures out.total[60 * m + t] == out.data[c][60 * m + t]
  {
    assert ExpandedColumn(profiles, pue, c, out.data[c]);
    ExpandedMinute(out.data[c], StartUps(profiles.data[c]), pue[c].startUpPeak, pue[c].startUpDuration, m);
    forall c' | c' in profiles.columns && c' != c && c' in out.data && 60 * m + t < |out.data[c']|
      ensures out.data[c'][60 * m + t] == 0.0
    {
      QuietColumnSecond(profiles, pue, out, m, t, c');
    }
    ColumnSumSingle(profiles.columns, out.data, 60 * m + t, c);
  }

  /** In a minute where only column c has an event, the totals are c's burst. */
  lemma SingleMinuteIsBurst(profiles: LoadProfiles, pue: map<string, ApplianceData>, out: PeakProfiles, m: nat, c: string)
    returns (offset: int)
    requires WellFormedProfiles(profiles) && PeakResult(profiles, pue, out)
    requires |profiles.columns| > 0 && m < profiles.rows
    requires c in profiles.data && c in pue
    requires StartUps(profiles.data[c])[m] != 0.0
    requires forall c' :: c' in profiles.data && c' != c ==> StartUps(profiles.data[c'])[m] == 0.0
    ensures 0 <= offset <= 60 - pue[c].startUpDuration
    ensures forall t :: 0 <= t < 60 ==> out.total[60 * m + t] == Burst(offset, pue[c].startUpPeak, pue[c].startUpDuration)[t]
  {
    assert ExpandedColumn(profiles, pue, c, out.data[c]);
    offset := EventMinute(out.data[c], StartUps(profiles.data[c]), pue[c].startUpPeak, pue[c].startUpDuration, m);
    forall t | 0 <= t < 60
      ensures out.total[60 * m + t] == Burst(offset, pue[c].startUpPeak, pue[c].startUpDuration)[t]
    {
      SingleColumnSecond(profiles, pue, out, m, t, c);
    }
  }

  /**
   * A minute with exactly one start-up event, of an appliance whose peak is
   * non-negative and lasts at least a second, has that appliance's start-up
   * peak as its maximum total.
   */
  lemma SingleStartUpPeak(profiles: LoadProfiles, pue: map<string, ApplianceData>, out: PeakProfiles, m: nat, c: string)
    requires WellFormedProfiles(profiles) && PeakResult(profiles, pue, out)
    requires |profiles.columns| > 0 && m < profiles.rows
    requires c in profiles.data && c in pue
    requires StartUps(profiles.data[c])[m] != 0.0
    requires forall c' :: c' in profiles.data && c' != c ==> StartUps(profiles.data[c'])[m] == 0.0
    requires pue[c].startUpPeak >= 0.0 && pue[c].startUpDuration >= 1
    ensures |out.minuteMax| == profiles.rows
    ensures out.minuteMax[m] == pue[c].startUpPeak
  {
    var offset := SingleMinuteIsBurst(profiles, pue, out, m, c);
    MinuteOfTotal(out.total, MinutesOf(profiles), m, Burst(offset, pue[c].startUpPeak, pue[c].startUpDuration));
    BurstMax(offset, pue[c].startUpPeak, pue[c].startUpDuration);
  }
}
