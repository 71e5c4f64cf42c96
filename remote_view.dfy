/** The client's view of the other players: what the `gameState` branch of the
    message handler keeps of the server's list. */
module RemoteView {
  import opened Protocol

  /** `p.id !== myPlayerId`: with no id yet (null), every record is kept. */
  predicate Kept(p: PlayerState, me: Option<string>) {
    me != Some(p.id)
  }

  /** The records of `players` other than the local player's, in their order. */
  function Others(players: seq<PlayerState>, me: Option<string>): (view: seq<PlayerState>)
    ensures |view| <= |players|
    ensures forall q :: q in view ==> q in players && Kept(q, me)
    ensures forall i :: 0 <= i < |players| && Kept(players[i], me) ==> players[i] in view
  {
    if players == [] then []
    else
      var last := players[|players| - 1];
      Others(players[..|players| - 1], me) + (if Kept(last, me) then [last] else [])
  }

  /** Filtering commutes with concatenation, so the view keeps the server's order. */
  lemma {:induction false} OthersOfConcat(a: seq<PlayerState>, b: seq<PlayerState>, me: Option<string>)
    ensures Others(a + b, me) == Others(a, me) + Others(b, me)
    decreases |b|
  {
    if b == [] {
      assert a + b == a;
    } else {
      var b' := b[..|b| - 1];
      assert (a + b)[..|a + b| - 1] == a + b';
      assert (a + b)[|a + b| - 1] == b[|b| - 1];
      OthersOfConcat(a, b', me);
    }
  }

  /** Before `init` has arrived the local id is null and the view is the whole list,
      the local player's own record included. */
  lemma {:induction false} OthersBeforeInit(players: seq<PlayerState>)
    ensures Others(players, None) == players
    decreases |players|
  {
    if players != [] {
      var init := players[..|players| - 1];
      OthersBeforeInit(init);
      assert players == init + [players[|players| - 1]];
    }
  }
}
