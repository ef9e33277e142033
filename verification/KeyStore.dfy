/** The table of API keys and what is done to it.
    A row is stored under the first hexadecimal digits of its token's SHA-256, which need not tell tokens
    apart; its Argon2 hash is represented by the token hashed, so verification is comparison. */
module KeyStore {
  import opened Schema

  const VISIBLE_PREFIX: string := "op_live_"

  datatype KeyRow = KeyRow(
    id: nat, name: string, scopes: seq<string>, rateLimit: int, secret: string,
    lastUsedAt: Option<int>, expiresAt: Option<int>, revokedAt: Option<int>)

  /** By look-up prefix, which is unique. */
  type Keys = map<string, KeyRow>

  type PrefixOf = string -> string

  /** What an administrator or a request does to the table. `id` and `body` of a new key are random; a revoke
      names a key by its look-up prefix or, when the text parses as one, by its id. */
  datatype KeyOp =
    | Create(body: string, id: nat, name: string, scopes: seq<string>, rateLimit: int, expiresAt: Option<int>)
    | Revoke(target: string, parsed: Option<nat>, at: int)
    | MarkUsed(id: nat, at: int)

  predicate IdTaken(keys: Keys, id: nat) {
    exists p :: p in keys && keys[p].id == id
  }

  predicate Targets(p: string, row: KeyRow, target: string, parsed: Option<nat>) {
    parsed == Some(row.id) || p == target
  }

  function RevokedRow(row: KeyRow, at: int): KeyRow {
    row.(revokedAt := if row.revokedAt.Some? then row.revokedAt else Some(at))
  }

  function ApplyOp(prefixOf: PrefixOf, keys: Keys, op: KeyOp): Keys {
    match op
    case Create(body, id, name, scopes, rate, expiresAt) =>
      var token := VISIBLE_PREFIX + body;
      if prefixOf(token) in keys || IdTaken(keys, id) then keys
      else keys[prefixOf(token) := KeyRow(id, name, scopes, rate, token, None, expiresAt, None)]
    case Revoke(target, parsed, at) =>
      map p | p in keys :: if Targets(p, keys[p], target, parsed) then RevokedRow(keys[p], at) else keys[p]
    case MarkUsed(id, at) =>
      map p | p in keys :: if keys[p].id == id then keys[p].(lastUsedAt := Some(at)) else keys[p]
  }

  predicate Active(row: KeyRow, now: int) {
    row.revokedAt.None? && (row.expiresAt.None? || row.expiresAt.value > now)
  }

  /** The active row under the token's prefix, before its secret is checked. */
  function Lookup(prefixOf: PrefixOf, keys: Keys, token: string, now: int): Option<KeyRow> {
    var p := prefixOf(token);
    if VISIBLE_PREFIX <= token && p in keys && Active(keys[p], now) then Some(keys[p]) else None
  }

  predicate Verifies(token: string, row: KeyRow) {
    row.secret == token
  }

  /** The same key, revocation and expiry, whenever it was last used. */
  predicate SameButUse(a: KeyRow, b: KeyRow) {
    a.(lastUsedAt := b.lastUsedAt) == b
  }

  /** Two look-ups that authorise alike. */
  predicate SameAnswer(a: Option<KeyRow>, b: Option<KeyRow>) {
    (a.Some? <==> b.Some?) && (a.Some? ==> SameButUse(a.value, b.value))
  }

  ghost predicate IdsAreUnique(keys: Keys) {
    forall p, q :: p in keys && q in keys && keys[p].id == keys[q].id ==> p == q
  }

  // ---- The table in place -------------------------------------------------------------------------------

  class KeyTable {
    var keys: Keys
    const prefixOf: PrefixOf

    constructor (prefixOf: PrefixOf)
      ensures keys == map[] && this.prefixOf == prefixOf
    {
      this.keys := map[];
      this.prefixOf := prefixOf;
    }

    /** Nothing is stored when the database reports a duplicate prefix or id. */
    method CreateKey(body: string, id: nat, name: string, scopes: seq<string>, rateLimit: int, expiresAt: Option<int>)
      returns (token: Option<string>)
      modifies this
      ensures keys == ApplyOp(prefixOf, old(keys), Create(body, id, name, scopes, rateLimit, expiresAt))
      ensures token.Some? <==> prefixOf(VISIBLE_PREFIX + body) !in old(keys) && !IdTaken(old(keys), id)
      ensures token.Some? ==>
        && token.value == "op_live_" + body && prefixOf(token.value) in keys
        && Verifies(token.value, keys[prefixOf(token.value)])
        && var row := keys[prefixOf(token.value)];
           && row.id == id && row.name == name && row.scopes == scopes && row.rateLimit == rateLimit
           && row.expiresAt == expiresAt && row.revokedAt.None? && row.lastUsedAt.None?
           && keys == old(keys)[prefixOf(token.value) := row]
      ensures token.None? ==> keys == old(keys)
    {
      var plaintext := VISIBLE_PREFIX + body;
      var prefix := prefixOf(plaintext);
      if prefix in keys || IdTaken(keys, id) {
        return None;
      }
      keys := keys[prefix := KeyRow(id, name, scopes, rateLimit, plaintext, None, expiresAt, None)];
      token := Some(plaintext);
    }

    method RevokeKey(target: string, parsed: Option<nat>, at: int) returns (found: bool)
      modifies this
      ensures keys == ApplyOp(prefixOf, old(keys), Revoke(target, parsed, at))
      ensures found <==> target in old(keys) || exists p :: p in old(keys) && parsed == Some(old(keys)[p].id)
      ensures keys.Keys == old(keys).Keys
      ensures forall p :: p in keys && (p == target || parsed == Some(old(keys)[p].id)) ==>
        && keys[p].revokedAt == (if old(keys)[p].revokedAt.Some? then old(keys)[p].revokedAt else Some(at))
        && keys[p].(revokedAt := None) == old(keys)[p].(revokedAt := None)
      ensures forall p :: p in keys && p != target && parsed != Some(old(keys)[p].id) ==> keys[p] == old(keys)[p]
      ensures forall token, now | prefixOf(token) in old(keys) ::
        (prefixOf(token) == target || parsed == Some(old(keys)[prefixOf(token)].id)) ==>
          Lookup(prefixOf, keys, token, now) == None
    {
      found := exists p :: p in keys && Targets(p, keys[p], target, parsed);
      keys := map p | p in keys :: if Targets(p, keys[p], target, parsed) then RevokedRow(keys[p], at) else keys[p];
    }

    method MarkKeyUsed(id: nat, at: int)
      modifies this
      ensures keys == ApplyOp(prefixOf, old(keys), MarkUsed(id, at))
      ensures keys.Keys == old(keys).Keys
      ensures forall p :: p in keys && old(keys)[p].id != id ==> keys[p] == old(keys)[p]
      ensures forall p :: p in keys && old(keys)[p].id == id ==>
        keys[p].lastUsedAt == Some(at) && SameButUse(keys[p], old(keys)[p])
      ensures IdsAreUnique(old(keys)) ==> IdsAreUnique(keys)
      ensures forall token, now :: SameAnswer(
        Lookup(prefixOf, keys, token, now), Lookup(prefixOf, old(keys), token, now))
    {
      keys := map p | p in keys :: if keys[p].id == id then keys[p].(lastUsedAt := Some(at)) else keys[p];
    }

    method LookupActiveRowByPrefix(token: string, now: int) returns (row: Option<KeyRow>)
      ensures row == Lookup(prefixOf, keys, token, now)
      ensures row.Some? <==>
        && "op_live_" <= token && prefixOf(token) in keys
        && var found := keys[prefixOf(token)];
           found.revokedAt.None? && (found.expiresAt.Some? ==> now < found.expiresAt.value)
      ensures row.Some? ==> row.value == keys[prefixOf(token)]
    {
      if !(VISIBLE_PREFIX <= token) {
        return None;
      }
      var p := prefixOf(token);
      row := if p in keys && Active(keys[p], now) then Some(keys[p]) else None;
    }
  }

  // ---- What no operation undoes -------------------------------------------------------------------------

  function ApplyOps(prefixOf: PrefixOf, keys: Keys, ops: seq<KeyOp>): Keys
    decreases |ops|
  {
    if ops == [] then keys else ApplyOps(prefixOf, ApplyOp(prefixOf, keys, ops[0]), ops[1..])
  }

  /** Whatever happens to the table later, a row keeps its identity, secret and expiry, is never removed or
      replaced, and once revoked stays revoked since the same moment. */
  lemma {:induction false} RowsAreNeverRevived(prefixOf: PrefixOf, keys: Keys, ops: seq<KeyOp>, p: string)
    requires p in keys
    ensures
      var keys' := ApplyOps(prefixOf, keys, ops);
      && p in keys' && keys'[p].id == keys[p].id && keys'[p].secret == keys[p].secret
      && keys'[p].expiresAt == keys[p].expiresAt
      && (keys[p].revokedAt.Some? ==> keys'[p].revokedAt == keys[p].revokedAt)
    decreases |ops|
  {
    if ops != [] {
      RowsAreNeverRevived(prefixOf, ApplyOp(prefixOf, keys, ops[0]), ops[1..], p);
    }
  }

  /** From an empty table, ids stay unique and every row is stored under the prefix of its own secret. */
  lemma {:induction false} TableStaysLawful(prefixOf: PrefixOf, keys: Keys, ops: seq<KeyOp>)
    requires IdsAreUnique(keys) && forall p :: p in keys ==> prefixOf(keys[p].secret) == p
    ensures
      var keys' := ApplyOps(prefixOf, keys, ops);
      IdsAreUnique(keys') && forall p :: p in keys' ==> prefixOf(keys'[p].secret) == p
    decreases |ops|
  {
    if ops != [] {
      var op := ops[0];
      var next := ApplyOp(prefixOf, keys, op);
      assert op.Create? && next != keys ==> forall p :: p in keys ==> keys[p].id != op.id;
      TableStaysLawful(prefixOf, next, ops[1..]);
    }
  }

  /** A key just created is accepted until it expires, whatever happens to other keys, and up to the first
      revocation that names its prefix or its id; after that, never again. */
  lemma {:induction false} KeyLifetime(prefixOf: PrefixOf, keys: Keys, ops: seq<KeyOp>, token: string, now: int)
    requires VISIBLE_PREFIX <= token && prefixOf(token) in keys && Verifies(token, keys[prefixOf(token)])
    requires keys[prefixOf(token)].revokedAt.None?
    ensures
      var row := keys[prefixOf(token)];
      Lookup(prefixOf, ApplyOps(prefixOf, keys, ops), token, now).Some? <==>
        && (row.expiresAt.None? || row.expiresAt.value > now)
        && forall i :: 0 <= i < |ops| && ops[i].Revoke? ==>
             ops[i].target != prefixOf(token) && ops[i].parsed != Some(row.id)
    ensures
      var found := Lookup(prefixOf, ApplyOps(prefixOf, keys, ops), token, now);
      found.Some? ==> Verifies(token, found.value)
    decreases |ops|
  {
    var p := prefixOf(token);
    if ops != [] {
      var op, rest := ops[0], ops[1..];
      var next := ApplyOp(prefixOf, keys, op);
      assert forall i :: 0 <= i < |rest| ==> rest[i] == ops[i + 1];
      assert forall i :: 0 < i < |ops| ==> ops[i] == rest[i - 1];
      if op.Revoke? && Targets(p, keys[p], op.target, op.parsed) {
        RowsAreNeverRevived(prefixOf, next, rest, p);
      } else {
        KeyLifetime(prefixOf, next, rest, token, now);
      }
    }
  }
}
