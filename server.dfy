/**
 * The REST backend's decision logic over its store. The store is the set
 * of collections the routes read and write: users, bins (unique by
 * `binId`), reports (by their database id) and notices. Whether the
 * database is connected is an input; password hashing and the database's
 * id check (`ObjectId.isValid`) are parameters, since their code is not
 * part of this model.
 */
module Server {

  import opened Wrappers
  import opened Text
  import opened Seqs
  import opened BinSchema
  import ReportSchema
  import NoticeSchema

  /** An HTTP answer: a status with a value, or a status with an error message. */
  datatype Reply<T> = Done(status: int, value: T) | Fail(status: int, error: string)

  const InternalError := "Internal server error"

  // ---------------------------------------------------------------------
  // Users: login and registration
  // ---------------------------------------------------------------------

  datatype User = User(id: string, email: string, password: string, name: string, userType: string)

  /** The user object a successful login or registration returns. */
  datatype UserView = UserView(id: string, email: string, name: string, userType: string)

  const DemoAdminId := "demo_admin_id"
  const DemoPublicId := "demo_public_id"
  const DemoAdminEmail := "admin@dhmc.lk"
  const DemoAdminPassword := "admin123"

  /** `User.findOne({email})`: the first user with that email. */
  function FindUser(users: seq<User>, email: string): (r: Option<User>)
    ensures r.Some? ==> r.value in users && r.value.email == email
    ensures r.None? <==> forall u :: u in users ==> u.email != email
  {
    if users == [] then None
    else if users[0].email == email then Some(users[0])
    else
      assert forall u :: u in users <==> u == users[0] || u in users[1..];
      FindUser(users[1..], email)
  }

  /** `User.findOne({userType: 'admin'})`: the first administrator, if any. */
  function FirstAdmin(users: seq<User>): (r: Option<User>)
    ensures r.Some? ==> r.value in users && r.value.userType == "admin"
    ensures r.None? <==> forall u :: u in users ==> u.userType != "admin"
  {
    if users == [] then None
    else if users[0].userType == "admin" then Some(users[0])
    else
      assert forall u :: u in users <==> u == users[0] || u in users[1..];
      FirstAdmin(users[1..])
  }

  predicate IsDemoAdminLogin(email: string, password: string, userType: Option<string>) {
    ToLower(email) == DemoAdminEmail && password == DemoAdminPassword && userType == Some("admin")
  }

  /**
   * `POST /api/auth/login`. In order: missing credentials (400); the demo
   * administrator (any letter case in the email); any public login, whatever
   * the password; then, with the database up, an unknown email or a wrong
   * password (401) and an administrator login by a non-administrator (403);
   * with the database down, 503.
   */
  function Login(connected: bool, users: seq<User>, passwordMatches: (User, string) -> bool,
                 email: Option<string>, password: Option<string>, userType: Option<string>)
    : (r: Reply<UserView>)
    ensures !TruthyStr(email) || !TruthyStr(password) <==> r == Fail(400, "Email and password are required")
    ensures TruthyStr(email) && TruthyStr(password) ==>
      if IsDemoAdminLogin(email.value, password.value, userType) then
        r == Done(200, UserView(DemoAdminId, DemoAdminEmail, "Admin User", "admin"))
      else if userType == Some("public") then
        r == Done(200, UserView(DemoPublicId, email.value, "Public User", "public"))
      else if !connected then
        r == Fail(503, "Database temporarily unavailable. Try demo credentials.")
      else
        var u := FindUser(users, ToLower(email.value));
        if u.None? || !passwordMatches(u.value, password.value) then
          r == Fail(401, "Invalid credentials")
        else if userType == Some("admin") && u.value.userType != "admin" then
          r == Fail(403, "Admin access required")
        else
          r == Done(200, UserView(u.value.id, u.value.email, u.value.name, u.value.userType))
  {
    if !TruthyStr(email) || !TruthyStr(password) then Fail(400, "Email and password are required")
    else if IsDemoAdminLogin(email.value, password.value, userType) then
      Done(200, UserView(DemoAdminId, DemoAdminEmail, "Admin User", "admin"))
    else if userType == Some("public") then
      Done(200, UserView(DemoPublicId, email.value, "Public User", "public"))
    else if connected then
      var u := FindUser(users, ToLower(email.value));
      if u.None? then Fail(401, "Invalid credentials")
      else if !passwordMatches(u.value, password.value) then Fail(401, "Invalid credentials")
      else if userType == Some("admin") && u.value.userType != "admin" then Fail(403, "Admin access required")
      else Done(200, UserView(u.value.id, u.value.email, u.value.name, u.value.userType))
    else
      Fail(503, "Database temporarily unavailable. Try demo credentials.")
  }

  /**
   * A login succeeds only through a demo path or for a stored user whose
   * password matches; an administrator login returns an administrator.
   */
  lemma {:induction false} LoginSuccessIsAuthenticated(connected: bool, users: seq<User>, passwordMatches: (User, string) -> bool,
                                    email: Option<string>, password: Option<string>, userType: Option<string>)
    requires Login(connected, users, passwordMatches, email, password, userType).Done?
    ensures var v := Login(connected, users, passwordMatches, email, password, userType).value;
            || (v.id == DemoAdminId && IsDemoAdminLogin(email.value, password.value, userType))
            || (v.id == DemoPublicId && userType == Some("public"))
            || (connected && exists u :: u in users && u.email == ToLower(email.value)
                                         && passwordMatches(u, password.value) && v.id == u.id
                                         && (userType == Some("admin") ==> v.userType == "admin"))
  {
    var v := Login(connected, users, passwordMatches, email, password, userType).value;
    if !IsDemoAdminLogin(email.value, password.value, userType) && userType != Some("public") {
      var u := FindUser(users, ToLower(email.value));
      assert u.value in users;
    }
  }

  /** A public login never looks at the store, so it succeeds even with the database down. */
  lemma {:induction false} PublicLoginNeedsNoStore(users: seq<User>, passwordMatches: (User, string) -> bool,
                                email: string, password: string)
    requires email != "" && password != ""
    ensures Login(false, users, passwordMatches, Some(email), Some(password), Some("public")).Done?
  {
  }

  /** `POST /api/auth/register`'s checks, before the user is stored. */
  function RegisterDecision(connected: bool, users: seq<User>,
                            email: Option<string>, password: Option<string>, name: Option<string>)
    : (r: Option<Reply<UserView>>)
    ensures r == Some(Fail(400, "All fields are required")) <==>
            !TruthyStr(email) || !TruthyStr(password) || !TruthyStr(name)
    ensures r.None? <==> && TruthyStr(email) && TruthyStr(password) && TruthyStr(name) && connected
                         && forall u :: u in users ==> u.email != ToLower(email.value)
    ensures r.Some? && r != Some(Fail(400, "All fields are required")) ==>
            r == (if !connected then Some(Fail(503, "Database temporarily unavailable"))
                  else Some(Fail(409, "User already exists")))
  {
    if !TruthyStr(email) || !TruthyStr(password) || !TruthyStr(name) then
      Some(Fail(400, "All fields are required"))
    else if !connected then Some(Fail(503, "Database temporarily unavailable"))
    else if FindUser(users, ToLower(email.value)).Some? then Some(Fail(409, "User already exists"))
    else None
  }

  // ---------------------------------------------------------------------
  // Bins: the sensor upsert and the reads
  // ---------------------------------------------------------------------

  /** No two stored bins share a `binId` (the schema's unique index). */
  predicate UniqueBinIds(bins: seq<BinDoc>) {
    forall i, j :: 0 <= i < j < |bins| ==> bins[i].binId != bins[j].binId
  }

  /** The position of the bin with that id, if any. */
  function IndexOfBin(bins: seq<BinDoc>, id: string): (r: Option<nat>)
    ensures r.Some? ==> r.value < |bins| && bins[r.value].binId == id
                        && forall j :: 0 <= j < r.value ==> bins[j].binId != id
    ensures r.None? <==> forall j :: 0 <= j < |bins| ==> bins[j].binId != id
  {
    if bins == [] then None
    else if bins[0].binId == id then Some(0)
    else
      var r := IndexOfBin(bins[1..], id);
      assert forall j :: 1 <= j < |bins| ==> bins[j] == bins[1..][j - 1];
      if r.Some? then Some(r.value + 1) else None
  }

  /** `Bin.findOne({binId: id})`. */
  function FindBin(bins: seq<BinDoc>, id: string): (r: Option<BinDoc>)
    ensures r.Some? ==> r.value in bins && r.value.binId == id
    ensures r.None? <==> forall b :: b in bins ==> b.binId != id
  {
    var i := IndexOfBin(bins, id);
    if i.Some? then Some(bins[i.value]) else None
  }

  /** A sensor reading as the ESP32 posts it; `None` is an absent field. */
  datatype Reading = Reading(level: Option<int>, distance: Option<int>, timestamp: Option<int>)

  /** The two 400 checks of update-level, the level first. */
  function ValidateReading(r: Reading): (e: Option<string>)
    ensures e == Some("Valid level (0-100) is required") <==> r.level.None? || !(0 <= r.level.value <= 100)
    ensures e == Some("Valid distance is required") <==>
            r.level.Some? && 0 <= r.level.value <= 100 && (r.distance.None? || r.distance.value < 0)
    ensures e.None? <==> r.level.Some? && 0 <= r.level.value <= 100 && r.distance.Some? && r.distance.value >= 0
  {
    if r.level.None? || r.level.value < 0 || r.level.value > 100 then Some("Valid level (0-100) is required")
    else if r.distance.None? || r.distance.value < 0 then Some("Valid distance is required")
    else None
  }

  /** The `sensorData` object the upsert writes: `timestamp || Date.now()`. */
  function SampleOf(level: int, distance: int, timestamp: Option<int>, now: int): SensorData {
    SensorData(Some(distance), Some(level), Some(if TruthyNum(timestamp) then timestamp.value else now), None, None)
  }

  /**
   * The document an upsert inserts when no bin has the id: the id of the
   * cast filter, the written fields, and the schema defaults (inserted
   * with the upsert, as Mongoose 6 and later do by default). The
   * validators do not run on this path, so it has no location and no area.
   */
  function UpsertedBin(id: string, level: int, distance: int, timestamp: Option<int>, now: int): BinDoc {
    BinDoc(id, None, level, Some(distance), None, 240, GeneralWaste, Active, now, None,
           Some(SampleOf(level, distance, timestamp, now)), "Daily 6:00 AM")
  }

  /**
   * `Bin.findOneAndUpdate({binId: id}, {level, distance, lastUpdated, sensorData}, {upsert: true})`.
   */
  function UpsertReading(bins: seq<BinDoc>, id: string, level: int, distance: int,
                         timestamp: Option<int>, now: int): (r: seq<BinDoc>)
    ensures IndexOfBin(bins, id).Some? ==>
              var i := IndexOfBin(bins, id).value;
              && |r| == |bins|
              && r[i] == bins[i].(level := level, distance := Some(distance), lastUpdated := now,
                                  sensorData := Some(SampleOf(level, distance, timestamp, now)))
              && forall j :: 0 <= j < |bins| && j != i ==> r[j] == bins[j]
    ensures IndexOfBin(bins, id).None? ==> r == bins + [UpsertedBin(id, level, distance, timestamp, now)]
  {
    var i := IndexOfBin(bins, id);
    if i.Some? then
      bins[i.value := bins[i.value].(level := level, distance := Some(distance), lastUpdated := now,
                                     sensorData := Some(SampleOf(level, distance, timestamp, now)))]
    else
      bins + [UpsertedBin(id, level, distance, timestamp, now)]
  }

  /** After the upsert, the bin with that id holds the reading just written. */
  lemma {:induction false} UpsertThenRead(bins: seq<BinDoc>, id: string, level: int, distance: int, timestamp: Option<int>, now: int)
    ensures var b := FindBin(UpsertReading(bins, id, level, distance, timestamp, now), id);
            && b.Some? && b.value.level == level && b.value.distance == Some(distance)
            && b.value.lastUpdated == now
            && b.value.sensorData.Some? && b.value.sensorData.value.rawDistance == Some(distance)
            && b.value.sensorData.value.calculatedLevel == Some(level)
  {
    var r := UpsertReading(bins, id, level, distance, timestamp, now);
    var i := IndexOfBin(bins, id);
    if i.Some? {
      assert IndexOfBin(r, id) == i by {
        assert forall j :: 0 <= j < i.value ==> r[j] == bins[j];
      }
    } else {
      assert r[|bins|].binId == id;
      assert IndexOfBin(r, id) == Some(|bins|) by {
        assert forall j :: 0 <= j < |bins| ==> r[j] == bins[j];
      }
    }
  }

  /** The upsert keeps the ids unique and touches no other bin's id. */
  lemma {:induction false} UpsertKeepsIdsUnique(bins: seq<BinDoc>, id: string, level: int, distance: int, timestamp: Option<int>, now: int)
    requires UniqueBinIds(bins)
    ensures UniqueBinIds(UpsertReading(bins, id, level, distance, timestamp, now))
  {
  }

  /** Every bin after the upsert is an old bin or holds the level just written. */
  lemma {:induction false} UpsertKeepsLevels(bins: seq<BinDoc>, id: string, level: int, distance: int,
                                             timestamp: Option<int>, now: int)
    ensures forall b :: b in UpsertReading(bins, id, level, distance, timestamp, now) ==> b in bins || b.level == level
  {
    var after := UpsertReading(bins, id, level, distance, timestamp, now);
    var i := IndexOfBin(bins, id);
    forall b | b in after ensures b in bins || b.level == level {
      var k :| 0 <= k < |after| && after[k] == b;
      if i.Some? && k != i.value { assert after[k] == bins[k]; }
      else if i.None? && k < |bins| { assert after[k] == bins[k]; }
    }
  }

  /**
   * Posting the same reading again leaves the store as if it had been
   * posted once, at the later time: only the timestamps move.
   */
  lemma {:induction false} UpsertRepeat(bins: seq<BinDoc>, id: string, level: int, distance: int,
                     timestamp: Option<int>, now1: int, now2: int)
    ensures UpsertReading(UpsertReading(bins, id, level, distance, timestamp, now1), id, level, distance, timestamp, now2)
            == UpsertReading(bins, id, level, distance, timestamp, now2)
  {
    var once := UpsertReading(bins, id, level, distance, timestamp, now1);
    var i := IndexOfBin(bins, id);
    if i.Some? {
      assert IndexOfBin(once, id) == i by {
        assert forall j :: 0 <= j < i.value ==> once[j] == bins[j];
      }
    } else {
      var u1 := UpsertedBin(id, level, distance, timestamp, now1);
      assert once == bins + [u1];
      assert once[|bins|] == u1;
      assert IndexOfBin(once, id) == Some(|bins|) by {
        assert forall j :: 0 <= j < |bins| ==> once[j] == bins[j];
      }
      var u2 := UpsertedBin(id, level, distance, timestamp, now2);
      assert u1.(level := level, distance := Some(distance), lastUpdated := now2,
                 sensorData := Some(SampleOf(level, distance, timestamp, now2))) == u2;
      assert once[|bins| := u2] == bins + [u2];
    }
  }

  /** What update-level answers with when the reading is accepted. */
  datatype LevelAck = Echoed(binId: string, level: int, distance: int, timestamp: Option<int>) | Stored(bin: BinDoc)

  /** `GET /api/bins`: the active bins, or the built-in sample when the database is down. */
  datatype BinsAnswer = ActiveBins(bins: seq<BinDoc>) | SampleBins

  predicate IsActiveBin(b: BinDoc) { b.status == Active }

  function GetBins(connected: bool, bins: seq<BinDoc>): (r: BinsAnswer)
    ensures r.SampleBins? <==> !connected
    ensures r.ActiveBins? ==> forall b :: b in r.bins <==> b in bins && b.status == Active
    ensures r.ActiveBins? ==> multiset(r.bins) == multiset(Filter(bins, IsActiveBin))
  {
    if connected then ActiveBins(Filter(bins, IsActiveBin)) else SampleBins
  }

  /**
   * The database reads a string compared with `binId` through the path's
   * `trim` and `uppercase` setters, so upper-casing the id first, as
   * update-level and `/realtime` do, changes nothing.
   */
  lemma {:induction false} UpperCasedFilterIsRedundant(rawId: string)
    ensures NormalizeBinId(ToUpper(rawId)) == NormalizeBinId(rawId)
  {
    TrimToUpper(rawId);
    ToUpperIdempotent(Trim(rawId));
  }

  /**
   * `GET /api/bins/:binId`: `findOne` with the path parameter, cast through
   * the `binId` setters. The route has no connection check: while the
   * database is down the buffered query fails and the catch answers 500.
   */
  function GetBin(connected: bool, bins: seq<BinDoc>, rawId: string): (r: Reply<BinDoc>)
    ensures !connected ==> r == Fail(500, "Internal server error")
    ensures connected && r.Fail? <==> connected && forall b :: b in bins ==> b.binId != NormalizeBinId(rawId)
    ensures connected && r.Fail? ==> r == Fail(404, "Bin not found")
    ensures r.Done? ==> connected && r.status == 200 && r.value in bins && r.value.binId == NormalizeBinId(rawId)
  {
    if !connected then Fail(500, "Internal server error")
    else
      var b := FindBin(bins, NormalizeBinId(rawId));
      if b.None? then Fail(404, "Bin not found") else Done(200, b.value)
  }

  /** The fields `/realtime` returns: the stored bin's, or the demo answer while the database is down. */
  datatype Realtime = Realtime(binId: string, level: int, distance: Option<int>, location: Option<Location>,
                               area: Option<string>, status: BinStatus, lastUpdated: int,
                               sensorData: Option<SensorData>)
                    | RealtimeDemo(binId: string, level: int, demoDistance: int, demoStatus: string, lastUpdated: int)

  /** `GET /api/bins/:binId/realtime`: looks the upper-cased id up, cast through the `binId` setters. */
  function GetRealtime(connected: bool, bins: seq<BinDoc>, rawId: string, now: int): (r: Reply<Realtime>)
    ensures !connected ==> r == Done(200, RealtimeDemo(rawId, 45, 55, "demo_mode", now))
    ensures connected && r.Fail? <==> connected && forall b :: b in bins ==> b.binId != NormalizeBinId(rawId)
    ensures r.Fail? ==> r == Fail(404, "Bin not found")
    ensures connected && r.Done? ==>
              && r.status == 200
              && exists b :: b in bins && b.binId == NormalizeBinId(rawId)
                             && r.value == Realtime(b.binId, b.level, b.distance, b.location, b.area, b.status,
                                                    b.lastUpdated, b.sensorData)
  {
    if !connected then Done(200, RealtimeDemo(rawId, 45, 55, "demo_mode", now))
    else
      var b := FindBin(bins, NormalizeBinId(ToUpper(rawId)));
      UpperCasedFilterIsRedundant(rawId);
      if b.None? then Fail(404, "Bin not found")
      else
        var v := b.value;
        Done(200, Realtime(v.binId, v.level, v.distance, v.location, v.area, v.status, v.lastUpdated, v.sensorData))
  }

  /**
   * A reading posted under one spelling of an id is found by both reads
   * under any spelling with the same trimmed, upper-cased form.
   */
  lemma {:induction false} IdSpellingsRead(bins: seq<BinDoc>, posted: string, asked: string, level: int,
                                           distance: int, timestamp: Option<int>, now: int)
    requires NormalizeBinId(asked) == NormalizeBinId(posted)
    ensures var after := UpsertReading(bins, NormalizeBinId(posted), level, distance, timestamp, now);
            && GetBin(true, after, asked).Done? && GetBin(true, after, asked).value.level == level
            && GetRealtime(true, after, asked, now).Done?
            && GetRealtime(true, after, asked, now).value.level == level
  {
    var id := NormalizeBinId(posted);
    UpsertThenRead(bins, id, level, distance, timestamp, now);
  }

  // ---------------------------------------------------------------------
  // Notices
  // ---------------------------------------------------------------------

  predicate IsActiveNotice(n: NoticeSchema.Notice) { n.status == NoticeSchema.Active }

  function NewestFirst(n: NoticeSchema.Notice): Key { Key(n.createdAt, 0) }

  /**
   * `GET /api/notices`: the notices with status active, newest first. The
   * expiry date is not consulted.
   */
  function GetNotices(notices: seq<NoticeSchema.Notice>): (r: seq<NoticeSchema.Notice>)
    ensures forall n :: n in r <==> n in notices && n.status == NoticeSchema.Active
    ensures multiset(r) == multiset(Filter(notices, IsActiveNotice))
    ensures forall i, j :: 0 <= i < j < |r| ==> r[i].createdAt >= r[j].createdAt
  {
    var kept := Filter(notices, IsActiveNotice);
    var r := SortDesc(kept, NewestFirst);
    assert forall n :: n in r <==> n in kept by {
      forall n ensures n in r <==> n in kept {
        assert n in r <==> n in multiset(r);
        assert n in kept <==> n in multiset(kept);
      }
    }
    assert forall i, j :: 0 <= i < j < |r| ==> AtLeast(NewestFirst(r[i]), NewestFirst(r[j]));
    r
  }

  /** Unlike `getActiveNotices`, the route still lists an active notice past its expiry. */
  lemma {:induction false} GetNoticesKeepsExpired(notices: seq<NoticeSchema.Notice>, n: NoticeSchema.Notice, now: int)
    requires n in notices && n.status == NoticeSchema.Active
    requires n.expiryDate.Some? && n.expiryDate.value <= now
    ensures n in GetNotices(notices) && n !in NoticeSchema.ActiveNotices(notices, now)
  {
  }

  /**
   * The author `POST /api/notices` records: for the demo administrator,
   * the first stored administrator (or none); a valid database id as
   * given; anything else none.
   */
  function NoticeAuthor(users: seq<User>, adminId: Option<string>, isValidId: string -> bool)
    : (r: Option<string>)
    ensures adminId == Some(DemoAdminId) ==>
              r == (if FirstAdmin(users).Some? then Some(FirstAdmin(users).value.id) else None)
    ensures adminId != Some(DemoAdminId) ==>
              (r.Some? <==> TruthyStr(adminId) && isValidId(adminId.value))
    ensures adminId != Some(DemoAdminId) && r.Some? ==> r == adminId
  {
    if adminId == Some(DemoAdminId) then
      var a := FirstAdmin(users);
      if a.Some? then Some(a.value.id) else None
    else if TruthyStr(adminId) && isValidId(adminId.value) then adminId
    else None
  }

  // ---------------------------------------------------------------------
  // Reports
  // ---------------------------------------------------------------------

  /** The submitter `POST /api/reports` records: a valid id that is not a demo id, otherwise none. */
  function ReporterOf(reportedBy: Option<string>, isValidId: string -> bool): (r: Option<string>)
    ensures r.Some? <==> && TruthyStr(reportedBy)
                         && reportedBy.value != DemoPublicId && reportedBy.value != DemoAdminId
                         && isValidId(reportedBy.value)
    ensures r.Some? ==> r == reportedBy
  {
    if TruthyStr(reportedBy) && reportedBy.value != DemoPublicId && reportedBy.value != DemoAdminId
       && isValidId(reportedBy.value)
    then reportedBy
    else None
  }

  /** The resolver `PATCH .../resolve` records, with the same rules as a notice's author. */
  function ResolverOf(users: seq<User>, resolvedBy: Option<string>, isValidId: string -> bool)
    : (r: Option<string>)
    ensures resolvedBy == Some(DemoAdminId) ==>
              r == (if FirstAdmin(users).Some? then Some(FirstAdmin(users).value.id) else None)
    ensures resolvedBy != Some(DemoAdminId) ==>
              (r.Some? <==> TruthyStr(resolvedBy) && isValidId(resolvedBy.value))
    ensures resolvedBy != Some(DemoAdminId) && r.Some? ==> r == resolvedBy
  {
    if TruthyStr(resolvedBy) && resolvedBy.value != DemoAdminId then
      if isValidId(resolvedBy.value) then resolvedBy else None
    else if resolvedBy == Some(DemoAdminId) then
      var a := FirstAdmin(users);
      if a.Some? then Some(a.value.id) else None
    else None
  }

  /** The update `findByIdAndUpdate` applies: resolved, by whom, and when. */
  function Resolve(r: ReportSchema.Report, resolver: Option<string>, now: int): (s: ReportSchema.Report)
    ensures s.status == ReportSchema.Resolved && s.resolvedBy == resolver && s.resolvedAt == Some(now)
    ensures s.(status := r.status, resolvedBy := r.resolvedBy, resolvedAt := r.resolvedAt) == r
  {
    r.(status := ReportSchema.Resolved, resolvedBy := resolver, resolvedAt := Some(now))
  }

  /** A second resolution overwrites the first; the prior status does not matter. */
  lemma {:induction false} ResolveTwiceOverwrites(r: ReportSchema.Report, by1: Option<string>, by2: Option<string>, t1: int, t2: int)
    ensures Resolve(Resolve(r, by1, t1), by2, t2) == Resolve(r, by2, t2)
  {
  }

  /** Resolving keeps a stored report valid. */
  lemma {:induction false} ResolveKeepsValid(r: ReportSchema.Report, resolver: Option<string>, now: int)
    requires ReportSchema.ValidReport(r)
    ensures ReportSchema.ValidReport(Resolve(r, resolver, now))
  {
  }

  // ---------------------------------------------------------------------
  // Analytics
  // ---------------------------------------------------------------------

  function SumLevels(bins: seq<BinDoc>): int {
    if bins == [] then 0 else bins[0].level + SumLevels(bins[1..])
  }

  lemma {:induction false} SumLevelsBounds(bins: seq<BinDoc>)
    requires forall b :: b in bins ==> 0 <= b.level <= 100
    ensures 0 <= SumLevels(bins) <= 100 * |bins|
  {
    if bins != [] {
      assert forall b :: b in bins[1..] ==> b in bins;
      SumLevelsBounds(bins[1..]);
    }
  }

  /**
   * `Math.round(sum / count)`: the nearest integer, halves rounded up,
   * which is floor((2 * sum + count) / (2 * count)).
   */
  function RoundedMean(sum: int, count: int): (r: int)
    requires count > 0
    ensures 2 * sum - count < 2 * r * count <= 2 * sum + count
  {
    (2 * sum + count) / (2 * count)
  }

  datatype BinStats = BinStats(total: int, full: int, empty: int, averageLevel: int)
  datatype ReportStats = ReportStats(total: int, pending: int, resolved: int)
  datatype Analytics = Analytics(bins: BinStats, reports: ReportStats) | SampleAnalytics

  predicate IsFullBin(b: BinDoc) { b.status == Active && b.level >= 80 }
  predicate IsEmptyBin(b: BinDoc) { b.status == Active && b.level < 50 }

  function CountStatus(reports: map<string, ReportSchema.Report>, s: ReportSchema.ReportStatus): int {
    |set id | id in reports && reports[id].status == s|
  }

  /** `GET /api/analytics/dashboard`. */
  function GetAnalytics(connected: bool, bins: seq<BinDoc>, reports: map<string, ReportSchema.Report>)
    : (r: Analytics)
    ensures r.SampleAnalytics? <==> !connected
    ensures r.Analytics? ==>
              var active := Filter(bins, IsActiveBin);
              && r.bins.total == |active|
              && r.bins.full == |Filter(bins, IsFullBin)| && r.bins.empty == |Filter(bins, IsEmptyBin)|
              && (active == [] ==> r.bins.averageLevel == 0)
              && (active != [] ==> 2 * SumLevels(active) - |active| < 2 * r.bins.averageLevel * |active|
                                                               <= 2 * SumLevels(active) + |active|)
              && r.reports.total == |reports|
              && r.reports.pending == CountStatus(reports, ReportSchema.Pending)
              && r.reports.resolved == CountStatus(reports, ReportSchema.Resolved)
  {
    if !connected then SampleAnalytics
    else
      var active := Filter(bins, IsActiveBin);
      var avg := if |active| > 0 then RoundedMean(SumLevels(active), |active|) else 0;
      Analytics(BinStats(|active|, |Filter(bins, IsFullBin)|, |Filter(bins, IsEmptyBin)|, avg),
                ReportStats(|reports|, CountStatus(reports, ReportSchema.Pending),
                            CountStatus(reports, ReportSchema.Resolved)))
  }

  /** With every level in 0..100 the rounded average is in 0..100 too. */
  lemma {:induction false} AverageInRange(bins: seq<BinDoc>, reports: map<string, ReportSchema.Report>)
    requires forall b :: b in bins ==> 0 <= b.level <= 100
    ensures 0 <= GetAnalytics(true, bins, reports).bins.averageLevel <= 100
  {
    var active := Filter(bins, IsActiveBin);
    if active != [] {
      SumLevelsBounds(active);
      var avg := GetAnalytics(true, bins, reports).bins.averageLevel;
      MeanInRange(SumLevels(active), |active|, avg);
    }
  }

  /** A rounded mean of values in 0..100 is in 0..100. */
  lemma {:induction false} MeanInRange(sum: int, n: int, avg: int)
    requires n > 0 && 0 <= sum <= 100 * n
    requires 2 * sum - n < 2 * avg * n <= 2 * sum + n
    ensures 0 <= avg <= 100
  {
    assert (2 * avg + 1) * n == 2 * avg * n + n;
    PositiveFactor(2 * avg + 1, n);
    assert (201 - 2 * avg) * n == 201 * n - 2 * avg * n;
    NonNegativeFactor(201 - 2 * avg, n);
  }

  lemma {:induction false} PositiveFactor(a: int, n: int)
    requires n > 0 && a * n > 0
    ensures a > 0
  {
  }

  lemma {:induction false} NonNegativeFactor(a: int, n: int)
    requires n > 0 && a * n >= 0
    ensures a >= 0
  {
  }

  /** Full and empty bins never overlap, so together they are at most the active total. */
  lemma {:induction false} FullAndEmptyWithinTotal(bins: seq<BinDoc>, reports: map<string, ReportSchema.Report>)
    ensures var r := GetAnalytics(true, bins, reports);
            r.bins.full + r.bins.empty <= r.bins.total
  {
    FilterDisjointUnion(bins, IsFullBin, IsEmptyBin, IsFullOrEmpty);
    FilterMonotoneCount(bins, IsFullOrEmpty, IsActiveBin);
  }

  predicate IsFullOrEmpty(b: BinDoc) { IsFullBin(b) || IsEmptyBin(b) }

  // ---------------------------------------------------------------------
  // The write routes' answers
  // ---------------------------------------------------------------------

  /**
   * What `POST /api/notices` answers: 400 without a title or content, 503
   * with the database down, otherwise the schema decides; a document the
   * schema refuses makes `save` throw, which the route answers with 500.
   * The priority defaults to medium and the author is `NoticeAuthor`.
   */
  function PostNotice(connected: bool, users: seq<User>, title: Option<string>, content: Option<string>,
                      priority: Option<string>, adminId: Option<string>, isValidId: string -> bool,
                      now: int): (r: Reply<NoticeSchema.Notice>)
    ensures !TruthyStr(title) || !TruthyStr(content) <==> r == Fail(400, "Title and content are required")
    ensures TruthyStr(title) && TruthyStr(content) && !connected ==>
              r == Fail(503, "Database temporarily unavailable")
    ensures TruthyStr(title) && TruthyStr(content) && connected ==>
              var n := NoticeSchema.NewNotice(title.value, content.value,
                                              if TruthyStr(priority) then priority.value else "medium",
                                              NoticeAuthor(users, adminId, isValidId), now);
              if n.Ok? then r == Done(201, n.value) else r == Fail(500, InternalError)
    ensures r.Done? ==> NoticeSchema.ValidNotice(r.value)
  {
    if !TruthyStr(title) || !TruthyStr(content) then Fail(400, "Title and content are required")
    else if !connected then Fail(503, "Database temporarily unavailable")
    else
      var p := if TruthyStr(priority) then priority.value else "medium";
      var author := NoticeAuthor(users, adminId, isValidId);
      var n := NoticeSchema.NewNotice(title.value, content.value, p, author, now);
      if n.Err? then Fail(500, InternalError)
      else
        NoticeSchema.NewNoticeIsValid(title.value, content.value, p, author, now);
        Done(201, n.value)
  }

  /**
   * The demo administrator cannot publish while no administrator is stored:
   * the notice gets no author, which the schema refuses.
   */
  lemma {:induction false} DemoAdminNeedsStoredAdmin(users: seq<User>, title: string, content: string,
                                  priority: Option<string>, isValidId: string -> bool, now: int)
    requires title != "" && content != ""
    requires forall u :: u in users ==> u.userType != "admin"
    ensures PostNotice(true, users, Some(title), Some(content), priority, Some(DemoAdminId), isValidId, now)
            == Fail(500, InternalError)
  {
    assert FirstAdmin(users).None?;
    assert NoticeAuthor(users, Some(DemoAdminId), isValidId).None?;
  }

  /** A notice without a priority is published as a medium one. */
  lemma {:induction false} NoticePriorityDefaultsToMedium(connected: bool, users: seq<User>, title: Option<string>,
                                       content: Option<string>, adminId: Option<string>,
                                       isValidId: string -> bool, now: int)
    requires PostNotice(connected, users, title, content, None, adminId, isValidId, now).Done?
    ensures PostNotice(connected, users, title, content, None, adminId, isValidId, now).value.priority
            == NoticeSchema.Medium
  {
    var r := PostNotice(connected, users, title, content, None, adminId, isValidId, now);
    assert NoticeSchema.PriorityName(r.value.priority) == "medium";
  }

  /**
   * What `POST /api/reports` answers: 400 without a type or description,
   * 503 with the database down, otherwise the schema decides (a refused
   * document is a 500). `newId` is the id the database assigns; one that is
   * already taken fails the insert, also with 500.
   */
  function PostReport(connected: bool, reports: map<string, ReportSchema.Report>,
                      reportType: Option<string>, description: Option<string>,
                      location: Option<ReportSchema.Place>, binId: Option<string>,
                      reportedBy: Option<string>, isValidId: string -> bool,
                      newId: string, now: int): (r: Reply<ReportSchema.Report>)
    ensures !TruthyStr(reportType) || !TruthyStr(description) <==>
            r == Fail(400, "Report type and description are required")
    ensures TruthyStr(reportType) && TruthyStr(description) && !connected ==>
              r == Fail(503, "Database temporarily unavailable")
    ensures r.Done? ==> r.status == 201 && newId !in reports && ReportSchema.ValidReport(r.value)
  {
    if !TruthyStr(reportType) || !TruthyStr(description) then
      Fail(400, "Report type and description are required")
    else if !connected then Fail(503, "Database temporarily unavailable")
    else
      var reporter := ReporterOf(reportedBy, isValidId);
      var n := ReportSchema.NewReport(reportType.value, description.value, location, binId, reporter, now);
      if n.Err? || newId in reports then Fail(500, InternalError)
      else
        ReportSchema.NewReportIsValid(reportType.value, description.value, location, binId, reporter, now);
        Done(201, n.value)
  }

  /**
   * With both fields present and the database up, the route stores exactly
   * what the schema builds from the request, or answers 500.
   */
  lemma {:induction false} PostReportIsSchemaDocument(reports: map<string, ReportSchema.Report>,
                                   reportType: string, description: string,
                                   location: Option<ReportSchema.Place>, binId: Option<string>,
                                   reportedBy: Option<string>, isValidId: string -> bool,
                                   newId: string, now: int)
    requires reportType != "" && description != ""
    ensures var n := ReportSchema.NewReport(reportType, description, location, binId,
                                            ReporterOf(reportedBy, isValidId), now);
            var r := PostReport(true, reports, Some(reportType), Some(description), location, binId,
                                reportedBy, isValidId, newId, now);
            if n.Ok? && newId !in reports then r == Done(201, n.value) else r == Fail(500, InternalError)
  {
  }

  /** A report sent with a demo user's id is stored without a submitter. */
  lemma {:induction false} DemoReporterDropped(connected: bool, reports: map<string, ReportSchema.Report>,
                            reportType: Option<string>, description: Option<string>,
                            location: Option<ReportSchema.Place>, binId: Option<string>,
                            isValidId: string -> bool, newId: string, now: int)
    requires PostReport(connected, reports, reportType, description, location, binId,
                        Some(DemoPublicId), isValidId, newId, now).Done?
    ensures PostReport(connected, reports, reportType, description, location, binId,
                       Some(DemoPublicId), isValidId, newId, now).value.reportedBy.None?
  {
    assert ReporterOf(Some(DemoPublicId), isValidId).None?;
  }

  /**
   * What `PATCH /api/reports/:reportId/resolve` answers: 503 with the
   * database down; an id the database cannot parse fails the update (500);
   * an unknown one is a 404; otherwise the resolved report.
   */
  function ResolveReply(connected: bool, users: seq<User>, reports: map<string, ReportSchema.Report>,
                        reportId: string, resolvedBy: Option<string>, isValidId: string -> bool,
                        now: int): (r: Reply<ReportSchema.Report>)
    ensures !connected <==> r == Fail(503, "Database temporarily unavailable")
    ensures connected && !isValidId(reportId) ==> r == Fail(500, InternalError)
    ensures connected && isValidId(reportId) && reportId !in reports ==> r == Fail(404, "Report not found")
    ensures r.Done? <==> connected && isValidId(reportId) && reportId in reports
    ensures r.Done? ==> && r.status == 200
                        && r.value == Resolve(reports[reportId], ResolverOf(users, resolvedBy, isValidId), now)
                        && r.value.status == ReportSchema.Resolved && r.value.resolvedAt == Some(now)
  {
    if !connected then Fail(503, "Database temporarily unavailable")
    else if !isValidId(reportId) then Fail(500, InternalError)
    else if reportId !in reports then Fail(404, "Report not found")
    else Done(200, Resolve(reports[reportId], ResolverOf(users, resolvedBy, isValidId), now))
  }

  predicate AllReportsValid(reports: map<string, ReportSchema.Report>) {
    forall id :: id in reports ==> ReportSchema.ValidReport(reports[id])
  }

  lemma {:induction false} ReportsStayValid(reports: map<string, ReportSchema.Report>, id: string, r: ReportSchema.Report)
    requires AllReportsValid(reports) && ReportSchema.ValidReport(r)
    ensures AllReportsValid(reports[id := r])
  {
  }

  // ---------------------------------------------------------------------
  // The backend and its store
  // ---------------------------------------------------------------------

  class Backend {
    var connected: bool
    var users: seq<User>
    var bins: seq<BinDoc>
    var reports: map<string, ReportSchema.Report>
    var notices: seq<NoticeSchema.Notice>

    /** The store's invariants: unique bin ids, levels in range, valid reports and notices. */
    predicate Valid()
      reads this
    {
      && UniqueBinIds(bins)
      && (forall b :: b in bins ==> 0 <= b.level <= 100)
      && AllReportsValid(reports)
      && (forall n :: n in notices ==> NoticeSchema.ValidNotice(n))
    }

    constructor (connected: bool)
      ensures Valid()
      ensures this.connected == connected
      ensures users == [] && bins == [] && reports == map[] && notices == []
    {
      this.connected := connected;
      users := [];
      bins := [];
      reports := map[];
      notices := [];
    }

    /**
   * `POST /api/bins/:binId/update-level`. The filter `binId.toUpperCase()`
   * is cast through the `binId` setters, and an inserted document takes
   * its id from that cast filter.
   */
    method UpdateLevel(binId: string, reading: Reading, now: int) returns (r: Reply<LevelAck>)
      requires Valid()
      modifies this
      ensures Valid()
      ensures ValidateReading(reading).Some? ==> r == Fail(400, ValidateReading(reading).value) && bins == old(bins)
      ensures ValidateReading(reading).None? && !connected ==>
                r == Done(200, Echoed(binId, reading.level.value, reading.distance.value, reading.timestamp)) && bins == old(bins)
      ensures ValidateReading(reading).None? && connected ==>
                && bins == UpsertReading(old(bins), NormalizeBinId(binId), reading.level.value, reading.distance.value,
                                         reading.timestamp, now)
                && r.Done? && r.status == 200 && r.value.Stored?
                && FindBin(bins, NormalizeBinId(binId)) == Some(r.value.bin)
      ensures connected == old(connected) && users == old(users)
      ensures reports == old(reports) && notices == old(notices)
    {
      var e := ValidateReading(reading);
      if e.Some? {
        return Fail(400, e.value);
      }
      var level, distance := reading.level.value, reading.distance.value;
      if !connected {
        return Done(200, Echoed(binId, level, distance, reading.timestamp));
      }
      var id := NormalizeBinId(ToUpper(binId));
      UpperCasedFilterIsRedundant(binId);
      UpsertKeepsIdsUnique(bins, id, level, distance, reading.timestamp, now);
      UpsertThenRead(bins, id, level, distance, reading.timestamp, now);
      UpsertKeepsLevels(bins, id, level, distance, reading.timestamp, now);
      bins := UpsertReading(bins, id, level, distance, reading.timestamp, now);
      var stored := FindBin(bins, id);
      return Done(200, Stored(stored.value));
    }

    /** `POST /api/auth/register`: on success, a public user with the lower-cased email. */
    method Register(email: Option<string>, password: Option<string>, name: Option<string>, newId: string)
      returns (r: Reply<UserView>)
      requires Valid()
      modifies this
      ensures Valid()
      ensures var d := RegisterDecision(old(connected), old(users), email, password, name);
              && (d.Some? ==> r == d.value && users == old(users))
              && (d.None? ==> && r == Done(201, UserView(newId, ToLower(email.value), name.value, "public"))
                              && users == old(users) + [User(newId, ToLower(email.value), password.value,
                                                             name.value, "public")])
      ensures connected == old(connected) && bins == old(bins)
      ensures reports == old(reports) && notices == old(notices)
    {
      var d := RegisterDecision(connected, users, email, password, name);
      if d.Some? {
        return d.value;
      }
      var user := User(newId, ToLower(email.value), password.value, name.value, "public");
      users := users + [user];
      return Done(201, UserView(user.id, user.email, user.name, user.userType));
    }

    /** `POST /api/notices`: the notice is appended exactly when the route answers 201. */
    method CreateNotice(title: Option<string>, content: Option<string>, priority: Option<string>,
                        adminId: Option<string>, isValidId: string -> bool, now: int)
      returns (r: Reply<NoticeSchema.Notice>)
      requires Valid()
      modifies this
      ensures Valid()
      ensures r == PostNotice(old(connected), old(users), title, content, priority, adminId, isValidId, now)
      ensures notices == old(notices) + (if r.Done? then [r.value] else [])
      ensures connected == old(connected) && users == old(users)
      ensures bins == old(bins) && reports == old(reports)
    {
      var up, known := connected, users;
      r := PostNotice(up, known, title, content, priority, adminId, isValidId, now);
      notices := notices + if r.Done? then [r.value] else [];
    }

    /** `POST /api/reports`: the report is stored under `newId` exactly when the route answers 201. */
    method CreateReport(reportType: Option<string>, description: Option<string>,
                        location: Option<ReportSchema.Place>, binId: Option<string>,
                        reportedBy: Option<string>, isValidId: string -> bool,
                        newId: string, now: int)
      returns (r: Reply<ReportSchema.Report>)
      requires Valid()
      modifies this
      ensures Valid()
      ensures r == PostReport(old(connected), old(reports), reportType, description, location, binId,
                              reportedBy, isValidId, newId, now)
      ensures reports == if r.Done? then old(reports)[newId := r.value] else old(reports)
      ensures connected == old(connected) && users == old(users)
      ensures bins == old(bins) && notices == old(notices)
    {
      var up, stored := connected, reports;
      r := PostReport(up, stored, reportType, description, location, binId,
                      reportedBy, isValidId, newId, now);
      var next := if r.Done? then stored[newId := r.value] else stored;
      assert AllReportsValid(next) by {
        if r.Done? {
          ReportsStayValid(stored, newId, r.value);
        }
      }
      reports := next;
    }

    /** `PATCH /api/reports/:reportId/resolve`: the report is replaced exactly when the route answers 200. */
    method ResolveReport(reportId: string, resolvedBy: Option<string>, isValidId: string -> bool, now: int)
      returns (r: Reply<ReportSchema.Report>)
      requires Valid()
      modifies this
      ensures Valid()
      ensures r == ResolveReply(old(connected), old(users), old(reports), reportId, resolvedBy, isValidId, now)
      ensures reports == if r.Done? then old(reports)[reportId := r.value] else old(reports)
      ensures connected == old(connected) && users == old(users)
      ensures bins == old(bins) && notices == old(notices)
    {
      var up, known, stored := connected, users, reports;
      r := ResolveReply(up, known, stored, reportId, resolvedBy, isValidId, now);
      if r.Done? {
        ResolveKeepsValid(stored[reportId], ResolverOf(known, resolvedBy, isValidId), now);
        ReportsStayValid(stored, reportId, r.value);
      }
      reports := if r.Done? then stored[reportId := r.value] else stored;
    }
  }
}
