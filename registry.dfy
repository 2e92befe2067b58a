/** The fixed team slots and the join-token table of the quiz server
    (backend/server.js:26-37 and 47-58). */
module Registry {
  import opened Wrappers

  type SlotId = string
  type Token = string

  /** The ten slot keys, in the order in which `Object.keys` visits both the team
      record and the token table. */
  const SlotIds: seq<SlotId> :=
    ["team1", "team2", "team3", "team4", "team5", "team6", "team7", "team8", "team9", "team10"]

  /** The slot keys as a set: the key set of both tables, which never grows or shrinks. */
  const SlotSet: set<SlotId> := set id | id in SlotIds

  /** `keys` lists the set `s`, each element exactly once: an `Object.keys` order. */
  ghost predicate Enumerates(keys: seq<SlotId>, s: set<SlotId>)
  {
    && (forall i, j :: 0 <= i < j < |keys| ==> keys[i] != keys[j])
    && s == set k | k in keys
  }

  /** SlotIds lists every slot exactly once, so one pass over it visits each slot once. */
  lemma SlotIdsEnumerate()
    ensures Enumerates(SlotIds, SlotSet)
  {
  }

  /** The token table as issued at start-up: one token per slot, no two alike
      (each is a fresh version-4 UUID, which the model takes as given). */
  ghost predicate TokensIssued(tokens: map<SlotId, Token>)
  {
    && tokens.Keys == SlotSet
    && forall a, b :: a in tokens && b in tokens && a != b ==> tokens[a] != tokens[b]
  }

  /** Slot `id` holds `token` in the table. */
  predicate Holds(tokens: map<SlotId, Token>, id: SlotId, token: Token)
  {
    id in tokens && tokens[id] == token
  }

  /** The position of the first key in `ids` whose token is `token`: the search
      `Object.keys(teamTokens).find(key => teamTokens[key] === token)`. */
  function FindFrom(ids: seq<SlotId>, tokens: map<SlotId, Token>, token: Token): (r: Option<nat>)
    ensures r.Some? ==> r.value < |ids| && Holds(tokens, ids[r.value], token)
    ensures r.Some? ==> forall j :: 0 <= j < r.value ==> !Holds(tokens, ids[j], token)
    ensures r.None? ==> forall j :: 0 <= j < |ids| ==> !Holds(tokens, ids[j], token)
    decreases |ids|
  {
    if ids == [] then None
    else if Holds(tokens, ids[0], token) then Some(0)
    else
      match FindFrom(ids[1..], tokens, token)
      case None => None
      case Some(k) => Some(k + 1)
  }

  /** The slot a join token belongs to, if any (backend/server.js:229). */
  function SlotOfToken(tokens: map<SlotId, Token>, token: Token): Option<SlotId>
  {
    match FindFrom(SlotIds, tokens, token)
    case None => None
    case Some(k) => Some(SlotIds[k])
  }

  /** A slot's own token always resolves to that slot, and to no other. */
  lemma SlotOfIssuedToken(tokens: map<SlotId, Token>, id: SlotId)
    requires TokensIssued(tokens)
    requires id in tokens
    ensures SlotOfToken(tokens, tokens[id]) == Some(id)
  {
    assert id in SlotIds;
    var i :| 0 <= i < |SlotIds| && SlotIds[i] == id;
    assert Holds(tokens, SlotIds[i], tokens[id]);
  }

  /** A token that no slot holds resolves to nothing; a token that does resolve is
      held by the slot it resolves to. */
  lemma SlotOfTokenSound(tokens: map<SlotId, Token>, token: Token)
    ensures SlotOfToken(tokens, token).None? <==> forall id :: id in SlotSet ==> !Holds(tokens, id, token)
    ensures SlotOfToken(tokens, token).Some? ==>
      SlotOfToken(tokens, token).value in SlotSet && Holds(tokens, SlotOfToken(tokens, token).value, token)
  {
    SlotIdsEnumerate();
    match FindFrom(SlotIds, tokens, token)
    case None =>
      forall id | id in SlotSet ensures !Holds(tokens, id, token) {
        var i :| 0 <= i < |SlotIds| && SlotIds[i] == id;
      }
    case Some(k) =>
      assert SlotIds[k] in SlotSet;
  }
}
