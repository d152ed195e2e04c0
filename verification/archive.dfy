/** Finished games and the ladder in Postgres (internal/store/ratings.go).

    One SaveFinished call is one transaction. The Glicko update is a parameter here; module Glicko
    says what it computes. */
module Archive {
  import opened Options
  import opened Game
  import G = Glicko
  import R = Reals

  type Rate = (G.Player, seq<G.Result>) -> G.Player

  /** The archived columns. OpponentID and Friend are not among them. */
  datatype Row = Row(
    player: Color, result: Result, termination: string, moves: seq<Uci>, ply: int,
    createdAt: int, userId: string, level: int, rated: bool)

  datatype User = User(skill: G.Player, ratedGames: nat, botLevel: int)

  /** The log is the order in which rows were inserted; nothing in the source reads it. */
  datatype Entry = Entry(id: string, row: Row)

  datatype Db = Db(rows: map<string, Row>, users: map<string, User>, log: seq<Entry>)

  const MEASURED_LEVEL := 5
  const MEASURED_RATING := 1000.0
  const POINTS_PER_LEVEL := 120.0
  const MEASURED_DEVIATION := 50.0
  const ASSUMED_DEVIATION := 150.0
  const START_RATING := MEASURED_RATING

  /** The column defaults of a new account. */
  const NEW_USER := User(G.Player(START_RATING, 350.0, 0.06), 0, 3)

  function EngineRating(level: int): real {
    MEASURED_RATING + (level - MEASURED_LEVEL) as real * POINTS_PER_LEVEL
  }

  function EngineDeviation(level: int): real {
    if level == MEASURED_LEVEL then MEASURED_DEVIATION else ASSUMED_DEVIATION
  }

  function Columns(g: GameRec): Row {
    Row(g.player, g.result, g.termination, g.moves, g.ply, g.createdAt, g.userId, g.level, g.rated)
  }

  /** scoreFor: the player's score, None for a game that was not decided. */
  function ScoreFor(row: Row): Option<real> {
    match row.result
    case Draw => Some(0.5)
    case WhiteWins => Some(if row.player == White then 1.0 else 0.0)
    case BlackWins => Some(if row.player == Black then 1.0 else 0.0)
    case NoResult => None
  }

  function Clamp(level: int): int {
    if level < 1 then 1 else if level > 6 then 6 else level
  }

  function LadderStep(score: real): int {
    if score == 1.0 then 1 else if score == 0.0 then -1 else 0
  }

  function AfterGame(rate: Rate, u: User, score: real, level: int): User {
    var skill := rate(u.skill, [G.Result(EngineRating(level), EngineDeviation(level), score)]);
    var rung := if LadderStep(score) == 0 then u.botLevel else Clamp(u.botLevel + LadderStep(score));
    User(skill, u.ratedGames + 1, rung)
  }

  /** Whether an archived game moves this user's rating. */
  predicate Counts(row: Row, user: string) {
    row.userId == user && user != "" && row.rated && ScoreFor(row).Some?
  }

  /** SaveFinished as one transaction. None is an error that rolled back: the foreign key on
      games.user_id refuses a row for an account that is gone. */
  function Saved(rate: Rate, db: Db, g: GameRec): Option<Db> {
    var row := Columns(g);
    if g.id in db.rows then Some(db)
    else if row.userId != "" && row.userId !in db.users then None
    else
      var users := if Counts(row, row.userId)
                   then db.users[row.userId :=
                          AfterGame(rate, db.users[row.userId], ScoreFor(row).value, row.level)]
                   else db.users;
      Some(Db(db.rows[g.id := row], users, db.log + [Entry(g.id, row)]))
  }

  /** A user's account as the clamped fold of their counting games in archive order. */
  function Fold(rate: Rate, log: seq<Entry>, user: string): User {
    if log == [] then NEW_USER
    else
      var before := Fold(rate, log[..|log| - 1], user);
      var row := log[|log| - 1].row;
      if Counts(row, user) then AfterGame(rate, before, ScoreFor(row).value, row.level) else before
  }

  // ---- What one game does to its player -----------------------------------------------------------

  predicate Won(g: GameRec) {
    (g.result == WhiteWins && g.player == White) || (g.result == BlackWins && g.player == Black)
  }

  predicate Lost(g: GameRec) {
    (g.result == WhiteWins && g.player == Black) || (g.result == BlackWins && g.player == White)
  }

  /** The account of the player of a rated game, before and after: the game is counted and scored against the
      level's strength, a win goes up a rung of six, a loss down one, and a draw leaves the rung. */
  ghost predicate Settled(rate: Rate, g: GameRec, before: User, after: User) {
    && after.ratedGames == before.ratedGames + 1
    && (Won(g) ==> after.skill == rate(before.skill, [Against(g.level, 1.0)]))
    && (Lost(g) ==> after.skill == rate(before.skill, [Against(g.level, 0.0)]))
    && (g.result == Draw ==> after.skill == rate(before.skill, [Against(g.level, 0.5)]))
    && (g.result == Draw ==> after.botLevel == before.botLevel)
    && (1 <= before.botLevel <= 6 ==>
          && (Won(g) ==> after.botLevel == if before.botLevel == 6 then 6 else before.botLevel + 1)
          && (Lost(g) ==> after.botLevel == if before.botLevel == 1 then 1 else before.botLevel - 1))
  }

  /** A result against the bot: 1000 at level 5, 120 points a level, and more certain where it was measured. */
  ghost function Against(level: int, score: real): G.Result {
    G.Result(1000.0 + 120.0 * (level - 5) as real, if level == 5 then 50.0 else 150.0, score)
  }

  lemma IsSettled(rate: Rate, g: GameRec, before: User)
    requires ScoreFor(Columns(g)).Some?
    ensures Won(g) || Lost(g) || g.result == Draw
    ensures Settled(rate, g, before, AfterGame(rate, before, ScoreFor(Columns(g)).value, g.level))
  {
  }

  /** The rate is the Glicko update. */
  ghost predicate ByGlicko(rate: Rate, m: R.Maths, fuel: nat)
    requires R.Sound(m)
  {
    forall p, results | G.Rated(p) :: rate(p, results) == G.Updated(m, p, results, fuel)
  }

  /** A won game strictly raises its player's rating and a lost one strictly lowers it. */
  lemma ResultMovesThePlayer(rate: Rate, m: R.Maths, fuel: nat, g: GameRec, before: User, after: User)
    requires R.Sound(m) && ByGlicko(rate, m, fuel) && G.Rated(before.skill) && Settled(rate, g, before, after)
    ensures Won(g) ==> after.skill.rating > before.skill.rating
    ensures Lost(g) ==> after.skill.rating < before.skill.rating
    ensures Won(g) || Lost(g) || g.result == Draw ==> G.Rated(after.skill)
  {
    hide R.Sound;
    G.ResultMovesRating(m, before.skill, Against(g.level, 1.0), fuel);
    G.ResultMovesRating(m, before.skill, Against(g.level, 0.0), fuel);
  }

  function CountingIds(rows: map<string, Row>, user: string): set<string> {
    set id | id in rows && Counts(rows[id], user)
  }

  function RowsOf(log: seq<Entry>): map<string, Row> {
    if log == [] then map[]
    else RowsOf(log[..|log| - 1])[log[|log| - 1].id := log[|log| - 1].row]
  }

  ghost predicate EachOnce(log: seq<Entry>) {
    log == [] || (log[|log| - 1].id !in RowsOf(log[..|log| - 1]) && EachOnce(log[..|log| - 1]))
  }

  /** Each game once, every account the fold of its own archived games, and no row without its
      account. */
  ghost predicate Ledger(rate: Rate, db: Db) {
    && db.rows == RowsOf(db.log)
    && EachOnce(db.log)
    && (forall u | u in db.users :: db.users[u] == Fold(rate, db.log, u))
    && (forall id | id in db.rows :: db.rows[id].userId == "" || db.rows[id].userId in db.users)
  }

  lemma SavedKeepsLedger(rate: Rate, db: Db, g: GameRec)
    requires Ledger(rate, db)
    ensures Saved(rate, db, g).Some? ==> Ledger(rate, Saved(rate, db, g).value)
  {
    if Saved(rate, db, g).Some? && g.id !in db.rows {
      var after := Saved(rate, db, g).value;
      assert after.log[..|after.log| - 1] == db.log;
      assert after.log[|after.log| - 1] == Entry(g.id, Columns(g));
      forall u | u in after.users ensures after.users[u] == Fold(rate, after.log, u) {
        assert db.users[u] == Fold(rate, db.log, u);
      }
    }
  }

  /** A second save of the same game, by whichever service, changes nothing. */
  lemma SavedTwice(rate: Rate, db: Db, g: GameRec, again: GameRec)
    requires Saved(rate, db, g).Some? && again.id == g.id
    ensures Saved(rate, Saved(rate, db, g).value, again) == Saved(rate, db, g)
  {
  }

  lemma {:induction false} FoldCounts(rate: Rate, log: seq<Entry>, user: string)
    requires EachOnce(log)
    ensures Fold(rate, log, user).ratedGames == |CountingIds(RowsOf(log), user)|
    ensures 1 <= Fold(rate, log, user).botLevel <= 6
  {
    if log == [] {
      assert CountingIds(RowsOf(log), user) == {};
    } else {
      var shorter, last := log[..|log| - 1], log[|log| - 1];
      FoldCounts(rate, shorter, user);
      var before := CountingIds(RowsOf(shorter), user);
      assert CountingIds(RowsOf(log), user)
          == if Counts(last.row, user) then before + {last.id} else before;
    }
  }

  /** The count on the account is the number of archived games that count, and the level stays on
      the ladder. */
  lemma LedgerCounts(rate: Rate, db: Db, user: string)
    requires Ledger(rate, db) && user in db.users
    ensures db.users[user].ratedGames == |CountingIds(db.rows, user)|
    ensures 1 <= db.users[user].botLevel <= 6
  {
    FoldCounts(rate, db.log, user);
  }

  /** Every account can be updated by Glicko: its volatility stays positive. */
  lemma {:induction false} FoldIsRated(rate: Rate, m: R.Maths, fuel: nat, log: seq<Entry>, user: string)
    requires R.Sound(m) && ByGlicko(rate, m, fuel)
    ensures G.Rated(Fold(rate, log, user).skill)
  {
    hide R.Sound;
    if log != [] {
      var before, row := Fold(rate, log[..|log| - 1], user), log[|log| - 1].row;
      FoldIsRated(rate, m, fuel, log[..|log| - 1], user);
      if Counts(row, user) {
        var results := [G.Result(EngineRating(row.level), EngineDeviation(row.level), ScoreFor(row).value)];
        assert rate(before.skill, results) == G.Updated(m, before.skill, results, fuel);
      }
    }
  }

  /** In an archive that is a ledger, a first save of a rated game strictly raises the rating of the player who
      won it and strictly lowers that of the one who lost, a rung up or down on the ladder. */
  lemma SaveMovesThePlayer(rate: Rate, m: R.Maths, fuel: nat, db: Db, g: GameRec)
    requires R.Sound(m) && ByGlicko(rate, m, fuel) && Ledger(rate, db)
    requires g.id !in db.rows && g.userId != "" && g.userId in db.users && g.rated
    requires Saved(rate, db, g).Some?
    ensures var before, after := db.users[g.userId], Saved(rate, db, g).value.users[g.userId];
      && (Won(g) ==> after.skill.rating > before.skill.rating
                     && after.botLevel == if before.botLevel == 6 then 6 else before.botLevel + 1)
      && (Lost(g) ==> after.skill.rating < before.skill.rating
                      && after.botLevel == if before.botLevel == 1 then 1 else before.botLevel - 1)
      && (g.result == Draw ==> after.botLevel == before.botLevel)
      && (g.result == NoResult ==> after == before)
  {
    var before := db.users[g.userId];
    FoldIsRated(rate, m, fuel, db.log, g.userId);
    LedgerCounts(rate, db, g.userId);
    if g.result != NoResult {
      IsSettled(rate, g, before);
      ResultMovesThePlayer(rate, m, fuel, g, before, Saved(rate, db, g).value.users[g.userId]);
    }
    hide R.Sound, Ledger, AfterGame, ByGlicko;
  }

  function SavedAll(rate: Rate, db: Db, calls: seq<GameRec>): Db {
    if calls == [] then db
    else
      var before := SavedAll(rate, db, calls[..|calls| - 1]);
      match Saved(rate, before, calls[|calls| - 1])
      case Some(after) => after
      case None => before
  }

  function Fresh(users: set<string>): Db {
    Db(map[], map u | u in users :: NEW_USER, [])
  }

  /** Copies of one game agree on what is archived, which module LiveGame proves of every run. */
  ghost predicate Agree(calls: seq<GameRec>) {
    forall a, b | a in calls && b in calls && a.id == b.id :: Columns(a) == Columns(b)
  }

  predicate HasAccount(g: GameRec, users: set<string>) {
    g.userId == "" || g.userId in users
  }

  function Due(users: set<string>, calls: seq<GameRec>): set<string> {
    set g | g in calls && HasAccount(g, users) :: g.id
  }

  /** What any number of saves leaves behind, said without the calls' order: a game is archived
      exactly when its account (if it has one) exists, with the columns every copy agrees on. */
  ghost predicate ArchivedExactly(db: Db, users: set<string>, calls: seq<GameRec>) {
    && db.users.Keys == users
    && db.rows.Keys == Due(users, calls)
    && (forall g | g in calls && g.id in db.rows :: db.rows[g.id] == Columns(g))
  }

  lemma OneMoreSave(rate: Rate, users: set<string>, db: Db, calls: seq<GameRec>, g: GameRec, after: Db)
    requires Agree(calls + [g]) && ArchivedExactly(db, users, calls)
    requires after == match Saved(rate, db, g) case Some(d) => d case None => db
    ensures ArchivedExactly(after, users, calls + [g])
  {
    assert Due(users, calls + [g])
        == Due(users, calls) + (if HasAccount(g, users) then {g.id} else {});
    assert after.users.Keys == users;
    forall c | c in calls + [g] && c.id in after.rows ensures after.rows[c.id] == Columns(c) {
      if g.id in db.rows {
        var d :| d in calls && HasAccount(d, users) && d.id == g.id;
        assert Columns(d) == Columns(g);
      }
    }
  }

  /** Any number of saves in any order, from any service: each game is archived once with the same
      columns whoever wins, and the accounts are what those rows say. */
  lemma {:induction false} SavesInAnyOrder(rate: Rate, users: set<string>, calls: seq<GameRec>)
    requires Agree(calls)
    ensures var db := SavedAll(rate, Fresh(users), calls);
      && Ledger(rate, db)
      && ArchivedExactly(db, users, calls)
      && (forall u | u in users ::
            && db.users[u].ratedGames == |CountingIds(db.rows, u)|
            && 1 <= db.users[u].botLevel <= 6)
  {
    var db := SavedAll(rate, Fresh(users), calls);
    if calls != [] {
      var shorter, g := calls[..|calls| - 1], calls[|calls| - 1];
      SavesInAnyOrder(rate, users, shorter);
      var before := SavedAll(rate, Fresh(users), shorter);
      SavedKeepsLedger(rate, before, g);
      assert shorter + [g] == calls;
      OneMoreSave(rate, users, before, shorter, g, db);
    }
    forall u | u in users
      ensures db.users[u].ratedGames == |CountingIds(db.rows, u)| && 1 <= db.users[u].botLevel <= 6
    {
      LedgerCounts(rate, db, u);
    }
  }

  /** A deleted account's game is refused by its foreign key, so however often its save is retried it is
      never archived. */
  lemma {:induction false} DeletedAccountLosesTheGame(rate: Rate, db: Db, calls: seq<GameRec>, g: GameRec)
    requires g.userId != "" && g.userId !in db.users && g.id !in db.rows
    requires forall c | c in calls && c.id == g.id :: c.userId == g.userId
    ensures var after := SavedAll(rate, db, calls);
      g.id !in after.rows && g.userId !in after.users && Saved(rate, after, g).None?
  {
    hide AfterGame;
    if calls != [] {
      DeletedAccountLosesTheGame(rate, db, calls[..|calls| - 1], g);
    }
  }

  /** The Archive object: rows and accounts changed in place, with the transaction's rollback. */
  class Archive {
    var rows: map<string, Row>
    var users: map<string, User>
    var log: seq<Entry>

    constructor ()
      ensures View() == Db(map[], map[], [])
    {
      rows, users, log := map[], map[], [];
    }

    function View(): Db
      reads this
    {
      Db(rows, users, log)
    }

    /** INSERT INTO games ... ON CONFLICT (id) DO NOTHING. */
    method Insert(g: GameRec) returns (err: bool, affected: nat)
      modifies this
      ensures users == old(users)
      ensures err <==> g.id !in old(rows) && g.userId != "" && g.userId !in users
      ensures affected == if !err && g.id !in old(rows) then 1 else 0
      ensures affected == 0 ==> rows == old(rows) && log == old(log)
      ensures affected == 1 ==> rows == old(rows)[g.id := Columns(g)]
      ensures affected == 1 ==> log == old(log) + [Entry(g.id, Columns(g))]
    {
      if g.id in rows { return false, 0; }
      if g.userId != "" && g.userId !in users { return true, 0; }
      rows := rows[g.id := Columns(g)];
      log := log + [Entry(g.id, Columns(g))];
      return false, 1;
    }

    method ApplyRating(rate: Rate, userId: string, score: real, level: int)
      modifies this`users
      ensures users == if userId !in old(users) then old(users)
        else old(users)[userId := AfterGame(rate, old(users)[userId], score, level).(
                                   botLevel := old(users)[userId].botLevel)]
    {
      if userId !in users { return; }
      var u := users[userId];
      var updated := rate(u.skill, [G.Result(EngineRating(level), EngineDeviation(level), score)]);
      users := users[userId := u.(skill := updated, ratedGames := u.ratedGames + 1)];
    }

    method MoveLadder(userId: string, score: real)
      modifies this`users
      ensures users == if userId !in old(users) || LadderStep(score) == 0 then old(users)
        else old(users)[userId := old(users)[userId].(
                                   botLevel := Clamp(old(users)[userId].botLevel + LadderStep(score)))]
    {
      var step := 0;
      if score == 1.0 { step := 1; } else if score == 0.0 { step := -1; }
      if step == 0 || userId !in users { return; }
      var u := users[userId];
      var level := u.botLevel + step;
      if level < 1 { level := 1; }
      if level > 6 { level := 6; }
      users := users[userId := u.(botLevel := level)];
    }

    /** The row, the rating and the rung, or nothing; `Settled` says what the game does to its player. */
    method SaveFinished(rate: Rate, g: GameRec) returns (ok: bool)
      modifies this
      ensures ok <==> Saved(rate, old(View()), g).Some?
      ensures View() == if ok then Saved(rate, old(View()), g).value else old(View())
      ensures ok <==> g.id in old(rows) || g.userId == "" || g.userId in old(users)
      ensures ok && g.id !in old(rows) ==>
        rows == old(rows)[g.id :=
          Row(g.player, g.result, g.termination, g.moves, g.ply, g.createdAt, g.userId, g.level, g.rated)]
      ensures if ok && g.id !in old(rows) && g.userId != "" && g.rated && g.result != NoResult
              then users == old(users)[g.userId := users[g.userId]]
                   && Settled(rate, g, old(users)[g.userId], users[g.userId])
              else users == old(users)
    {
      if g.userId in users && g.result != NoResult { IsSettled(rate, g, users[g.userId]); }
      hide Settled;
      var err, affected := Insert(g);
      if err { return false; }
      if affected == 0 { return true; }
      if g.userId != "" && g.rated {
        var score := ScoreFor(Columns(g));
        if score.Some? {
          ApplyRating(rate, g.userId, score.value, g.level);
          MoveLadder(g.userId, score.value);
        }
      }
      return true;
    }
  }
}
