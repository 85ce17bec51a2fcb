/**
 * The session store and matchmaking of the bot.
 *
 * Every Telegram user has a `UserState` record, kept by value in the map
 * `users` (a lookup hands out a copy, and a change only takes effect when
 * the copy is stored back). Users who asked for a game and found nobody
 * wait in the set `searching`. Each player of a match keeps a private copy
 * of the board; a move is applied to the mover's copy and then replayed on
 * the opponent's.
 *
 * The pure functions below say what each handler does to the store; the
 * class `Storage` holds the two collections and its methods are proved to
 * implement those functions. Sending and editing messages is not modelled:
 * where a message send stores the user's record again, the model stores it
 * too, and every send is taken to succeed.
 */
module Bot {
  import opened Game

  /** Where a user is in the bot's dialogue. */
  datatype SessionState = Start | SearchingGame | InGame | EndGame

  /** The per-user record: the user's own copy of the board, the partner of
    * the current match, the user's mark, the dialogue state and the
    * opponent's last move (used to highlight it). */
  datatype UserState = UserState(
    game: Snapshot,
    opponentUserId: int,
    whoMe: Cell,
    state: SessionState,
    lastX: int,
    lastY: int)

  /** The result announced to a player when a match ends. */
  datatype Verdict = Won | Lost | Draw

  // ---------------------------------------------------------------------
  // Single records
  // ---------------------------------------------------------------------

  /** The turn gate: the user's mark is the one to move. Neither the
    * dialogue state nor whether the game has ended is consulted. */
  predicate CanMeMakeMove(us: UserState)
  {
    us.whoMe == us.game.whoTurn
  }

  /** UserState.ResetGame: forget the last highlighted move and reset the board. */
  function ResetUser(us: UserState): (r: UserState)
    requires us.game.height >= 0 && us.game.width >= 0
    ensures WellFormed(r.game)
  {
    us.(lastX := -1, lastY := -1, game := Reset(us.game))
  }

  /** The record a user gets on first contact: an 8 by 8 board with lines of
    * 5, reset before it is handed out. The opponent id is Go's zero value. */
  function NewUser(): (u: UserState)
    ensures WellFormed(u.game) && u.game.height == 8 && u.game.width == 8 && u.game.winLength == 5
    ensures ValidateParams(u.game)
    ensures forall p, q :: InBounds(u.game, p, q) ==> u.game.board[p][q] == Empty
    ensures u.game.whoTurn == X && !u.game.isGameEnded
    ensures u.whoMe == X && u.state == Start && u.lastX == -1 && u.lastY == -1
  {
    ResetUser(UserState(Fresh(8, 8, 5), 0, X, Start, -1, -1))
  }

  /** Every stored board is a proper grid. */
  predicate AllWellFormed(users: map<int, UserState>)
  {
    forall id :: id in users ==> WellFormed(users[id].game)
  }

  /** The record getUserState returns: the stored one, or a new user's. */
  function Lookup(users: map<int, UserState>, id: int): (us: UserState)
    ensures id in users ==> us == users[id]
    ensures id !in users ==> us == NewUser()
    ensures AllWellFormed(users) ==> WellFormed(us.game)
  {
    if id in users then users[id] else NewUser()
  }

  /** The map after getUserState: the looked-up record is stored. */
  function Touch(users: map<int, UserState>, id: int): (r: map<int, UserState>)
    ensures id in r && r[id] == Lookup(users, id)
    ensures id in users ==> r == users
    ensures id !in users ==> r == users[id := NewUser()]
    ensures AllWellFormed(users) ==> AllWellFormed(r)
  {
    users[id := Lookup(users, id)]
  }

  // ---------------------------------------------------------------------
  // Matchmaking
  // ---------------------------------------------------------------------

  /** One call of searchOpponents by `id`, taking the waiting set `before`
    * to `after` and answering `(opponent, found)`. The loop over the waiting
    * set returns on its first iteration, so the call looks at whichever key
    * Go's map iteration yields first (any of them): the requester itself
    * leaves the set alone, anybody else is taken out and paired. With
    * nobody waiting, the requester is enqueued. */
  predicate SearchStep(before: set<int>, id: int, after: set<int>, opponent: int, found: bool)
  {
    if before == {} then
      after == {id} && opponent == 0 && !found
    else
      (id in before && after == before && opponent == 0 && !found) ||
      (opponent in before && opponent != id && after == before - {opponent} && found)
  }

  /** A search never pairs the requester with itself: the opponent came out
    * of the waiting set, and the requester was not added. */
  lemma SearchNeverPairsWithSelf(before: set<int>, id: int, after: set<int>, opponent: int, found: bool)
    requires SearchStep(before, id, after, opponent, found) && found
    ensures opponent != id && opponent in before && opponent !in after
    ensures after < before && (id in after <==> id in before)
  {
  }

  /** A search that finds nobody answers `(0, false)` and leaves the
    * requester waiting. */
  lemma SearchNotFound(before: set<int>, id: int, after: set<int>, opponent: int, found: bool)
    requires SearchStep(before, id, after, opponent, found) && !found
    ensures opponent == 0 && id in after && after == before + {id}
  {
  }

  /** A non-empty waiting set has a member. SearchOpponents needs this to
    * pick the key that Go's map iteration would yield first. */
  lemma NonEmptyHasMember(s: set<int>)
    requires s != {}
    ensures exists k :: k in s
  {
    if forall k :: k !in s {
      assert false;
    }
  }

  lemma SingletonSet(s: set<int>, k: int)
    requires |s| <= 1 && k in s
    ensures s == {k}
  {
    assert |s - {k}| == |s| - 1;
    assert s - {k} == {};
  }

  /** The waiting set never holds more than one user. */
  lemma SearchKeepsAtMostOne(before: set<int>, id: int, after: set<int>, opponent: int, found: bool)
    requires |before| <= 1 && SearchStep(before, id, after, opponent, found)
    ensures |after| <= 1
  {
  }

  /** With at most one user waiting, a search has exactly one outcome: the
    * random map order cannot matter. */
  lemma SearchDeterministic(before: set<int>, id: int,
                            after1: set<int>, opponent1: int, found1: bool,
                            after2: set<int>, opponent2: int, found2: bool)
    requires |before| <= 1
    requires SearchStep(before, id, after1, opponent1, found1)
    requires SearchStep(before, id, after2, opponent2, found2)
    ensures after1 == after2 && opponent1 == opponent2 && found1 == found2
  {
    if before != {} {
      var k :| k in before;
      SingletonSet(before, k);
    }
  }

  /** Asking again while waiting changes nothing and still finds nobody. */
  lemma SearchRepeated(before: set<int>, id: int, after: set<int>, opponent: int,
                       after2: set<int>, opponent2: int, found2: bool)
    requires |before| <= 1 && SearchStep(before, id, after, opponent, false)
    requires SearchStep(after, id, after2, opponent2, found2)
    ensures after == {id}
    ensures after2 == after && opponent2 == 0 && !found2
  {
    SingletonSet(after, id);
  }

  /** Three users asking in turn on an empty queue: the first waits, the
    * second is paired with the first, the third waits alone. */
  lemma ThreeRequesters(a: int, b: int, c: int,
                        s1: set<int>, o1: int, f1: bool,
                        s2: set<int>, o2: int, f2: bool,
                        s3: set<int>, o3: int, f3: bool)
    requires a != b && b != c && a != c
    requires SearchStep({}, a, s1, o1, f1)
    requires SearchStep(s1, b, s2, o2, f2)
    requires SearchStep(s2, c, s3, o3, f3)
    ensures s1 == {a} && !f1
    ensures f2 && o2 == a && s2 == {}
    ensures s3 == {c} && !f3
  {
  }

  /** The two marks after rand.Shuffle of `[X, O]`; `coin` stands for the
    * random outcome. */
  function MarksFor(coin: bool): (r: (Cell, Cell))
    ensures {r.0, r.1} == {X, O} && r.0 != r.1
  {
    if coin then (X, O) else (O, X)
  }

  /** The state updates of a successful pairing in startSeachingOpponent:
    * the requester, then the opponent (looked up afresh), enter InGame,
    * point at each other and take the two marks. */
  function Pair(users: map<int, UserState>, id: int, opponent: int, coin: bool): (r: map<int, UserState>)
    ensures r.Keys == users.Keys + {id, opponent}
    ensures r[opponent].state == InGame && r[opponent].opponentUserId == id
  {
    var marks := MarksFor(coin);
    var users1 := users[id := Lookup(users, id).(state := InGame, opponentUserId := opponent, whoMe := marks.0)];
    users1[opponent := Lookup(users1, opponent).(state := InGame, opponentUserId := id, whoMe := marks.1)]
  }

  /** Pairing links the two users to each other, gives them distinct marks
    * and changes neither board nor anybody else's record. */
  lemma PairingLinksBoth(users: map<int, UserState>, id: int, opponent: int, coin: bool)
    requires id != opponent
    ensures var r := Pair(users, id, opponent, coin);
      && r.Keys == users.Keys + {id, opponent}
      && r[id].state == InGame && r[opponent].state == InGame
      && r[id].opponentUserId == opponent && r[opponent].opponentUserId == id
      && {r[id].whoMe, r[opponent].whoMe} == {X, O} && r[id].whoMe != r[opponent].whoMe
      && r[id].game == Lookup(users, id).game && r[opponent].game == Lookup(users, opponent).game
      && (forall k :: k in users && k != id && k != opponent ==> r[k] == users[k])
  {
  }

  /** startSeachingOpponent after the search answered `(opponent, found)`:
    * the requester is marked SearchingGame, and on success paired. */
  function AfterSearch(users: map<int, UserState>, id: int, opponent: int, found: bool, coin: bool): (r: map<int, UserState>)
    ensures !found ==> r.Keys == users.Keys + {id} && r[id].state == SearchingGame
    ensures !found ==> r[id] == Lookup(users, id).(state := SearchingGame)
    ensures !found ==> forall k :: k in users && k != id ==> r[k] == users[k]
    ensures found ==> r.Keys == users.Keys + {id, opponent} && r[opponent].state == InGame
  {
    var waiting := users[id := Lookup(users, id).(state := SearchingGame)];
    if found then Pair(waiting, id, opponent, coin) else waiting
  }

  // ---------------------------------------------------------------------
  // The end of a match
  // ---------------------------------------------------------------------

  /** makeEndGame: both the user and the user's opponent are looked up and
    * moved to EndGame, in that order. */
  function EndGameSpec(users: map<int, UserState>, id: int): (r: map<int, UserState>)
    ensures r.Keys == users.Keys + {id, Lookup(users, id).opponentUserId}
    ensures r[Lookup(users, id).opponentUserId].state == EndGame
  {
    var us := Lookup(users, id);
    var users1 := users[id := us];
    var os := Lookup(users1, us.opponentUserId);
    var users2 := users1[us.opponentUserId := os];
    users2[id := us.(state := EndGame)][us.opponentUserId := os.(state := EndGame)]
  }

  /** makeEndGame moves both players to EndGame and touches nothing else:
    * no board, no winner, no other user. */
  lemma EndGameEffect(users: map<int, UserState>, id: int)
    ensures var opp := Lookup(users, id).opponentUserId;
      var r := EndGameSpec(users, id);
      && r.Keys == users.Keys + {id, opp}
      && r[id] == Lookup(users, id).(state := EndGame)
      && r[opp] == Lookup(users, opp).(state := EndGame)
      && (forall k :: k in users && k != id && k != opp ==> r[k] == users[k])
  {
  }

  /** The /resign handler. */
  function ResignSpec(users: map<int, UserState>, id: int): (r: map<int, UserState>)
    ensures id in r && r.Keys >= users.Keys
  {
    var us := Lookup(users, id);
    if us.state != InGame then Touch(users, id) else EndGameSpec(Touch(users, id), id)
  }

  /** Resigning outside a match changes nobody's record; inside one it
    * ends the match for both players without naming a winner. */
  lemma ResignEffect(users: map<int, UserState>, id: int)
    ensures var us := Lookup(users, id);
      var r := ResignSpec(users, id);
      us.state != InGame ==> r.Keys == users.Keys + {id} && forall k :: k in r ==> r[k] == Lookup(users, k)
    ensures var us := Lookup(users, id);
      var r := ResignSpec(users, id);
      us.state == InGame ==>
        && r[id] == us.(state := EndGame)
        && r[us.opponentUserId] == Lookup(users, us.opponentUserId).(state := EndGame)
        && r[id].game.whoWin == us.game.whoWin
  {
  }

  /** The messages of lines 360-374 of main.go, as results: the first for
    * the mover (whose mark is `whoMe`), the second for the opponent. */
  function Verdicts(whoWin: Cell, whoMe: Cell): (r: (Verdict, Verdict))
    ensures r.0 == Draw <==> r.1 == Draw
    ensures r.0 == Won <==> r.1 == Lost
  {
    if whoWin == Empty then (Draw, Draw)
    else if whoWin != whoMe then (Lost, Won)
    else (Won, Lost)
  }

  /** A draw is announced to both sides exactly when no mark won; otherwise
    * the mover wins exactly when the winning mark is the mover's, and the
    * opponent is told the opposite. */
  lemma VerdictsCases(whoWin: Cell, whoMe: Cell)
    ensures var r := Verdicts(whoWin, whoMe);
      && (r.0 == Draw <==> whoWin == Empty) && (r.1 == Draw <==> whoWin == Empty)
      && (whoWin != Empty ==> (r.0 == Won <==> whoWin == whoMe) && (r.1 == Won <==> r.0 == Lost))
  {
  }

  /** The opponent's message is the one the opponent would compute from its
    * own mark: the verdicts do not depend on who moved last. */
  lemma VerdictsAgree(whoWin: Cell, me: Cell, them: Cell)
    requires {me, them} == {X, O}
    ensures Verdicts(whoWin, me).0 == Verdicts(whoWin, them).1
    ensures Verdicts(whoWin, me).1 == Verdicts(whoWin, them).0
  {
  }

  // ---------------------------------------------------------------------
  // Moves: the board button handler
  // ---------------------------------------------------------------------

  /** The callback data of board button `(i, j)` on a keyboard `width`
    * buttons wide. */
  function ButtonData(i: int, j: int, width: int): int
  {
    i * width + j
  }

  /** Distinct buttons of a keyboard carry distinct data, and the data of a
    * `width` by `height` keyboard lie in `[0, width * height)`. */
  lemma ButtonDataDistinct(i: int, j: int, i': int, j': int, width: int, height: int)
    requires 0 <= i < height && 0 <= j < width && 0 <= i' < height && 0 <= j' < width
    ensures 0 <= ButtonData(i, j, width) < width * height
    ensures ButtonData(i, j, width) == ButtonData(i', j', width) <==> i == i' && j == j'
  {
    ButtonDataRow(i, j, width);
    ButtonDataRow(i', j', width);
    assert (i + 1) * width <= height * width by {
      MulLe(i + 1, height, width);
    }
    if i < i' {
      MulLe(i + 1, i', width);
    } else if i' < i {
      MulLe(i' + 1, i, width);
    }
  }

  lemma ButtonDataRow(i: int, j: int, width: int)
    requires 0 <= i && 0 <= j < width
    ensures i * width <= ButtonData(i, j, width) < (i + 1) * width
  {
  }

  lemma MulLe(a: int, b: int, width: int)
    requires a <= b && width >= 0
    ensures a * width <= b * width
  {
  }

  /** The two copies of one match agree: same board, shape, turn and end
    * flag, and the same winner once the game has ended. Before the end the
    * winners may differ, since ResetGame keeps whatever an earlier game
    * recorded. */
  predicate Synced(a: Snapshot, b: Snapshot)
  {
    && a.board == b.board && a.width == b.width && a.height == b.height && a.winLength == b.winLength
    && a.whoTurn == b.whoTurn && a.isGameEnded == b.isGameEnded
    && (a.isGameEnded ==> a.whoWin == b.whoWin)
  }

  /** Two copies reset with the same shape are in step. */
  lemma ResetSynced(a: Snapshot, b: Snapshot)
    requires a.height >= 0 && a.width >= 0
    requires a.width == b.width && a.height == b.height && a.winLength == b.winLength
    ensures Synced(Reset(a), Reset(b))
  {
  }

  /** The winning scan reads only the board and its shape. */
  lemma {:induction false} ScanReadsBoardOnly(s: Snapshot, t: Snapshot, i: int, j: int)
    requires WellFormed(s) && 0 <= i <= s.height && 0 <= j <= s.width
    requires s.board == t.board && s.width == t.width && s.height == t.height && s.winLength == t.winLength
    ensures FirstWinningCell(s, i, j) == FirstWinningCell(t, i, j)
    decreases s.height - i, s.width - j
  {
    if i == s.height {
    } else if j == s.width {
      ScanReadsBoardOnly(s, t, i + 1, 0);
    } else {
      assert WinsAt(s, i, j) == WinsAt(t, i, j) by {
        forall d, k | 1 <= k
          ensures Matches(s, i, j, d, k) == Matches(t, i, j, d, k)
        {
        }
      }
      ScanReadsBoardOnly(s, t, i, j + 1);
    }
  }

  /** Replaying a move on the opponent's copy keeps the two copies in step:
    * the move is accepted on both or on neither, and afterwards they agree
    * again, including the winner if the move ended the game. */
  lemma ReplayKeepsSync(a: Snapshot, b: Snapshot, i: int, j: int)
    requires WellFormed(a) && WellFormed(b) && Synced(a, b)
    ensures TryMove(a, i, j).ok == TryMove(b, i, j).ok
    ensures Synced(TryMove(a, i, j).after, TryMove(b, i, j).after)
  {
    if Legal(a, i, j) {
      var pa, pb := Place(a, i, j), Place(b, i, j);
      ScanReadsBoardOnly(pa, pb, 0, 0);
      assert HasEmpty(pa) == HasEmpty(pb);
    }
  }

  /** What a press of board button `(i, j)` by `id` did to the store, whether
    * the move was accepted, and the results announced if it ended the game. */
  datatype ButtonOutcome = ButtonOutcome(users: map<int, UserState>, accepted: bool, verdicts: Option<(Verdict, Verdict)>)

  /** The handler built by constructButtonHandler: the gate, the move on the
    * mover's copy, the replay on the opponent's copy, the highlight of the
    * move for the opponent, and makeEndGame if the move ended the game. */
  function PressButton(users: map<int, UserState>, id: int, i: int, j: int): (r: ButtonOutcome)
    requires AllWellFormed(users)
    ensures id in r.users && AllWellFormed(r.users)
    ensures r.verdicts.Some? ==> r.accepted
  {
    var us := Lookup(users, id);
    var users1 := Touch(users, id);
    if !CanMeMakeMove(us) then ButtonOutcome(users1, false, None)
    else
      var m := TryMove(us.game, i, j);
      if !m.ok then ButtonOutcome(users1, false, None)
      else
        var mover := us.(game := m.after);
        var users4 := Replay(users1[id := mover], id, mover, i, j);
        if m.after.isGameEnded then
          ButtonOutcome(EndGameSpec(users4, id), true, Some(Verdicts(m.after.whoWin, us.whoMe)))
        else
          ButtonOutcome(users4, true, None)
  }

  /** The part of the handler after the mover's copy was stored: the move is
    * replayed on the opponent's copy, the mover's copy is stored again and
    * the move is recorded as the opponent's last seen move. */
  function Replay(users: map<int, UserState>, id: int, mover: UserState, i: int, j: int): (r: map<int, UserState>)
    requires AllWellFormed(users)
    ensures r.Keys == users.Keys + {id, mover.opponentUserId}
    ensures r[mover.opponentUserId].lastX == i && r[mover.opponentUserId].lastY == j
    ensures mover.opponentUserId != id ==> r[id] == mover
    ensures forall k :: k in users && k != id && k != mover.opponentUserId ==> r[k] == users[k]
  {
    var opp := mover.opponentUserId;
    var os := Lookup(users, opp);
    var replayed := os.(game := TryMove(os.game, i, j).after);
    users[opp := replayed][id := mover][opp := replayed.(lastX := i, lastY := j)]
  }

  /** A press is accepted exactly when it is the presser's turn and the move
    * is legal on the presser's copy, whatever the dialogue state; a refused
    * press changes no record. Results are announced exactly when the
    * accepted move ended the game. */
  lemma ButtonAcceptance(users: map<int, UserState>, id: int, i: int, j: int)
    requires AllWellFormed(users)
    ensures var us := Lookup(users, id);
      var r := PressButton(users, id, i, j);
      && (r.accepted <==> CanMeMakeMove(us) && Legal(us.game, i, j))
      && (!r.accepted ==> r.users == Touch(users, id) && r.verdicts == None)
      && (r.accepted ==> (r.verdicts.Some? <==> TryMove(us.game, i, j).after.isGameEnded))
      && (r.verdicts.Some? ==>
            r.verdicts.value == Verdicts(TryMove(us.game, i, j).after.whoWin, us.whoMe))
  {
  }

  /** An accepted press between two players whose copies are in step leaves
    * them in step, with the move on both copies, the turn handed to the
    * opponent and the move recorded as the opponent's last seen move. The
    * two players keep their marks and links, change state only to EndGame
    * when the move ended the game, and nobody else's record changes. */
  lemma ButtonKeepsCopiesInStep(users: map<int, UserState>, id: int, i: int, j: int)
    requires AllWellFormed(users)
    requires Lookup(users, id).opponentUserId != id
    requires Synced(Lookup(users, id).game, Lookup(users, Lookup(users, id).opponentUserId).game)
    requires PressButton(users, id, i, j).accepted
    ensures var us := Lookup(users, id);
      var opp := us.opponentUserId;
      var r := PressButton(users, id, i, j).users;
      && r[id].game == TryMove(us.game, i, j).after
      && Synced(r[id].game, r[opp].game)
      && r[id].game.whoTurn == Other(us.whoMe)
      && r[opp].lastX == i && r[opp].lastY == j
    ensures var us := Lookup(users, id);
      var opp := us.opponentUserId;
      var os := Lookup(users, opp);
      var m := TryMove(us.game, i, j).after;
      var r := PressButton(users, id, i, j).users;
      && r.Keys == users.Keys + {id, opp}
      && (forall k :: k in users && k != id && k != opp ==> r[k] == users[k])
      && r[id] == us.(game := m, state := if m.isGameEnded then EndGame else us.state)
      && r[opp] == os.(game := TryMove(os.game, i, j).after, lastX := i, lastY := j,
                       state := if m.isGameEnded then EndGame else os.state)
  {
    var us := Lookup(users, id);
    var opp := us.opponentUserId;
    ReplayKeepsSync(us.game, Lookup(users, opp).game, i, j);
    var m := TryMove(us.game, i, j);
    if m.after.isGameEnded {
      EndGameEffect(Replay(Touch(users, id)[id := us.(game := m.after)], id, us.(game := m.after), i, j), id);
    }
  }

  /** In a match where the marks are X and O, after an accepted press the
    * presser may not move again and the opponent may. */
  lemma TurnPassesToOpponent(users: map<int, UserState>, id: int, i: int, j: int)
    requires AllWellFormed(users)
    requires Lookup(users, id).opponentUserId != id
    requires Synced(Lookup(users, id).game, Lookup(users, Lookup(users, id).opponentUserId).game)
    requires {Lookup(users, id).whoMe, Lookup(users, Lookup(users, id).opponentUserId).whoMe} == {X, O}
    requires PressButton(users, id, i, j).accepted
    ensures var opp := Lookup(users, id).opponentUserId;
      var r := PressButton(users, id, i, j).users;
      !CanMeMakeMove(r[id]) && CanMeMakeMove(r[opp])
  {
  }

  // ---------------------------------------------------------------------
  // The store
  // ---------------------------------------------------------------------

  /** TicTacToeBotStorage: the user records and the waiting set. Each
    * method is one atomic step, as the mutex makes it in the bot. */
  class Storage {
    var users: map<int, UserState>
    var searching: set<int>

    ghost predicate Valid()
      reads this
    {
      |searching| <= 1 && AllWellFormed(users)
    }

    /** NewTicTacToeBotStorage. */
    constructor ()
      ensures Valid() && users == map[] && searching == {}
    {
      users := map[];
      searching := {};
    }

    /** getUserState: the stored record, or a new user's, which is stored. */
    method GetUserState(id: int) returns (us: UserState)
      requires Valid()
      modifies this`users
      ensures Valid()
      ensures us == Lookup(old(users), id) && users == Touch(old(users), id)
    {
      if id in users {
        us := users[id];
      } else {
        us := NewUser();
        users := users[id := us];
      }
    }

    /** setUserState. */
    method SetUserState(id: int, us: UserState)
      requires Valid() && WellFormed(us.game)
      modifies this`users
      ensures Valid() && users == old(users)[id := us]
    {
      users := users[id := us];
    }

    /** searchOpponents. The loop over the waiting set returns during its
      * first iteration, so it amounts to taking one key, if any. */
    method SearchOpponents(id: int) returns (opponent: int, found: bool)
      requires Valid()
      modifies this`searching
      ensures Valid()
      ensures SearchStep(old(searching), id, searching, opponent, found)
    {
      var waiting := searching;
      if waiting != {} {
        NonEmptyHasMember(waiting);
        var key :| key in waiting;
        if key == id {
          return 0, false;
        }
        searching := searching - {key};
        SearchKeepsAtMostOne(old(searching), id, searching, key, true);
        return key, true;
      }
      searching := searching + {id};
      return 0, false;
    }

    /** startSeachingOpponent; `coin` is the outcome of the shuffle of the marks. */
    method StartSearchingOpponent(id: int, coin: bool) returns (opponent: int, found: bool)
      requires Valid()
      modifies this`users, this`searching
      ensures Valid()
      ensures SearchStep(old(searching), id, searching, opponent, found)
      ensures users == AfterSearch(old(users), id, opponent, found, coin)
    {
      var us := GetUserState(id);
      us := us.(state := SearchingGame);
      SetUserState(id, us);
      ghost var waiting := users;
      assert waiting == old(users)[id := Lookup(old(users), id).(state := SearchingGame)];
      opponent, found := SearchOpponents(id);
      if found {
        var marks := MarksFor(coin);
        us := us.(state := InGame, opponentUserId := opponent, whoMe := marks.0);
        SetUserState(id, us);
        var os := GetUserState(opponent);
        os := os.(state := InGame, opponentUserId := id, whoMe := marks.1);
        SetUserState(opponent, os);
        assert users == Pair(waiting, id, opponent, coin);
      }
    }

    /** makeEndGame. */
    method MakeEndGame(id: int)
      requires Valid()
      modifies this`users
      ensures Valid() && users == EndGameSpec(old(users), id)
    {
      var us := GetUserState(id);
      var os := GetUserState(us.opponentUserId);
      us := us.(state := EndGame);
      SetUserState(id, us);
      os := os.(state := EndGame);
      SetUserState(us.opponentUserId, os);
    }

    /** The /resign handler. */
    method Resign(id: int)
      requires Valid()
      modifies this`users
      ensures Valid() && users == ResignSpec(old(users), id)
    {
      var us := GetUserState(id);
      if us.state == InGame {
        MakeEndGame(id);
      }
    }

    /** The handler of board button `(i, j)`. */
    method HandleButton(id: int, i: int, j: int) returns (accepted: bool, verdicts: Option<(Verdict, Verdict)>)
      requires Valid()
      modifies this`users
      ensures Valid()
      ensures ButtonOutcome(users, accepted, verdicts) == PressButton(old(users), id, i, j)
    {
      var us := GetUserState(id);
      if !CanMeMakeMove(us) {
        return false, None;
      }
      var m := TryMove(us.game, i, j);
      if !m.ok {
        return false, None;
      }
      us := us.(game := m.after);
      SetUserState(id, us);
      ghost var users2 := users;
      var os := GetUserState(us.opponentUserId);
      os := os.(game := TryMove(os.game, i, j).after);
      SetUserState(us.opponentUserId, os);
      SetUserState(id, us);
      os := os.(lastX := i, lastY := j);
      SetUserState(us.opponentUserId, os);
      assert users == Replay(users2, id, us, i, j);
      accepted, verdicts := true, None;
      if us.game.isGameEnded {
        verdicts := Some(Verdicts(us.game.whoWin, us.whoMe));
        MakeEndGame(id);
      }
    }

    /** The handler of the "yes" button: reset the user's board, and start a
      * search if the user is at the start or after a match. */
    method PressYes(id: int, coin: bool) returns (opponent: int, found: bool)
      requires Valid()
      modifies this`users, this`searching
      ensures Valid()
      ensures var us := Lookup(old(users), id);
        var reset := old(users)[id := ResetUser(us)];
        if us.state == Start || us.state == EndGame then
          SearchStep(old(searching), id, searching, opponent, found) &&
          users == AfterSearch(reset, id, opponent, found, coin)
        else
          users == reset && searching == old(searching) && opponent == 0 && !found
    {
      var us := GetUserState(id);
      us := ResetUser(us);
      SetUserState(id, us);
      if us.state == Start || us.state == EndGame {
        opponent, found := StartSearchingOpponent(id, coin);
      } else {
        opponent, found := 0, false;
      }
    }
  }
}
