/**
 The rules both sides of a MAP exchange follow: which nonce a client sends and keeps,
 and how a server that identifies a mapping by its nonce answers (sections 11.3 and
 15.1 of RFC 6887).
 */
module MapRules {
  import opened Basics

  /** A server entry was made by a request of this client, or by somebody else's. */
  datatype Owner = Ours | Theirs

  datatype Entry = Entry(nonce: Nonce, owner: Owner)

  type Table = map<Key, Entry>
  type Nonces = map<Key, Nonce>

  /** How many times one request is sent. */
  const MAX_RETRIES := 4

  const SUCCESS: byte := 0
  const NOT_AUTHORIZED: byte := 2

  /** Any result code but SUCCESS, given for the server's own reasons. */
  type Refusal = x: byte | x != SUCCESS witness 8

  // ---------------------------------------------------------------- the server

  datatype Answered = Answered(code: byte, table: Table)

  /** How the server answers a request of this client for `key`. */
  function Answer(table: Table, key: Key, nonce: Nonce, lifetime: uint32, refusal: Option<Refusal>): Answered {
    if key in table && table[key].nonce != nonce then Answered(NOT_AUTHORIZED, table)
    else if refusal.Some? then Answered(refusal.value, table)
    else if lifetime == 0 then Answered(SUCCESS, table - {key})
    else Answered(SUCCESS, table[key := Entry(nonce, Ours)])
  }

  /** Another process on this host creates, renews or deletes a mapping of its own. */
  function OthersMap(table: Table, key: Key, nonce: Nonce): Table {
    if key in table then table else table[key := Entry(nonce, Theirs)]
  }

  function OthersUnmap(table: Table, key: Key, nonce: Nonce): Table {
    if key in table && table[key].nonce == nonce then table - {key} else table
  }

  // ---------------------------------------------------------------- the client

  function NonceToSend(nonces: Nonces, key: Key, candidate: Nonce): Nonce {
    if key in nonces then nonces[key] else candidate
  }

  /** The nonce is stored before a create is sent, and not at all for a delete. */
  function AfterPick(nonces: Nonces, key: Key, candidate: Nonce, lifetime: uint32): Nonces {
    if lifetime > 0 then nonces[key := NonceToSend(nonces, key, candidate)] else nonces
  }

  /** Only an accepted delete drops a nonce. */
  function AfterAccept(nonces: Nonces, key: Key, lifetime: uint32): Nonces {
    if lifetime == 0 then nonces - {key} else nonces
  }

  // ---------------------------------------------------------------- what they keep between them

  predicate NotOurs(table: Table, key: Key) {
    key in table ==> table[key].owner == Theirs
  }

  /** The client holds the nonce of every mapping it made that the server still has. */
  ghost predicate Held(nonces: Nonces, table: Table) {
    forall k :: k in table && table[k].owner == Ours ==> k in nonces && nonces[k] == table[k].nonce
  }

  /** `nonce` is what the client would send for `key`, and is stored if this is a create. */
  predicate Bound(nonces: Nonces, key: Key, nonce: Nonce, lifetime: uint32) {
    && (lifetime > 0 ==> key in nonces)
    && (key in nonces ==> nonces[key] == nonce)
  }

  lemma PickBinds(nonces: Nonces, table: Table, key: Key, candidate: Nonce, lifetime: uint32)
    ensures Bound(AfterPick(nonces, key, candidate, lifetime), key, NonceToSend(nonces, key, candidate), lifetime)
    ensures Held(nonces, table) ==> Held(AfterPick(nonces, key, candidate, lifetime), table)
  {
  }

  lemma AnswerKeepsHeld(nonces: Nonces, table: Table, key: Key, nonce: Nonce,
                        lifetime: uint32, refusal: Option<Refusal>)
    requires Held(nonces, table) && Bound(nonces, key, nonce, lifetime)
    ensures Held(nonces, Answer(table, key, nonce, lifetime, refusal).table)
  {
  }

  /** A request about a mapping of the client's own is never NOT_AUTHORIZED. */
  lemma OwnMappingIsAuthorized(nonces: Nonces, table: Table, key: Key, nonce: Nonce,
                               lifetime: uint32, refusal: Option<Refusal>)
    requires Held(nonces, table) && Bound(nonces, key, nonce, lifetime)
    requires key in table && table[key].owner == Ours
    ensures Answer(table, key, nonce, lifetime, refusal).code
            == (if refusal.Some? then refusal.value else SUCCESS)
  {
  }

  /** SUCCESS to a delete means exactly that nothing is left at the key. */
  lemma DeleteAnswer(table: Table, key: Key, nonce: Nonce, refusal: Option<Refusal>)
    ensures var a := Answer(table, key, nonce, 0, refusal);
            && (a.code == SUCCESS <==> refusal.None? && (key in table ==> table[key].nonce == nonce))
            && (a.code == SUCCESS ==> key !in a.table)
            && (a.code != SUCCESS ==> a.table == table)
            && forall k :: k != key ==> (k in a.table <==> k in table) && (k in table ==> a.table[k] == table[k])
  {
  }
}
