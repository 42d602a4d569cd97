/**
 * Presence: the `users` snapshot the relay sends, and the list of peers the
 * user can call, which is that snapshot without the local socket id.
 */
module Presence {
  import opened Wrappers

  /** A relay-assigned socket id. */
  type Id = string

  /** One `[id, name]` pair of `Object.entries(users)`. */
  datatype Entry = Entry(id: Id, name: string)

  /** The ids of a snapshot, in enumeration order. */
  function Ids(users: seq<Entry>): (ids: seq<Id>)
    ensures |ids| == |users|
    ensures forall i :: 0 <= i < |users| ==> ids[i] == users[i].id
  {
    if users == [] then [] else [users[0].id] + Ids(users[1..])
  }

  /** The entries of a JavaScript object have pairwise distinct keys. */
  predicate DistinctIds(users: seq<Entry>) {
    forall i, j :: 0 <= i < j < |users| ==> users[i].id != users[j].id
  }

  /** `a` is `b` with some elements left out, the rest in their order. */
  predicate IsSubsequence<T(==)>(a: seq<T>, b: seq<T>)
    decreases |b|
  {
    if a == [] then true
    else if b == [] then false
    else if a[0] == b[0] then IsSubsequence(a[1..], b[1..])
    else IsSubsequence(a, b[1..])
  }

  /** The filter `id !== socket.id`. Before the relay assigns an id,
      `socket.id` is undefined and the filter keeps every entry. */
  predicate Listed(e: Entry, own: Option<Id>) {
    own != Some(e.id)
  }

  /** `Object.entries(users).filter(([id]) => id !== socket.id)`: the callable
      peers, in enumeration order. An entry is listed exactly when it is in
      the snapshot and does not carry the local id; the local id is never
      listed. */
  function CallablePeers(users: seq<Entry>, own: Option<Id>): (r: seq<Entry>)
    ensures IsSubsequence(r, users)
    ensures forall e :: e in r <==> e in users && own != Some(e.id)
    ensures own.Some? ==> forall e :: e in r ==> e.id != own.value
    ensures own.None? ==> r == users
  {
    if users == [] then []
    else if Listed(users[0], own) then [users[0]] + CallablePeers(users[1..], own)
    else CallablePeers(users[1..], own)
  }

  /** On a snapshot with distinct ids, the filter drops exactly one entry when
      the local id is in the snapshot and none otherwise. */
  lemma {:induction false} CallablePeersCount(users: seq<Entry>, own: Option<Id>)
    requires DistinctIds(users)
    ensures |CallablePeers(users, own)| ==
            |users| - if own.Some? && own.value in Ids(users) then 1 else 0
  {
    if users != [] {
      var rest := users[1..];
      assert DistinctIds(rest) by {
        forall i, j | 0 <= i < j < |rest| ensures rest[i].id != rest[j].id {
          assert rest[i] == users[i + 1] && rest[j] == users[j + 1];
        }
      }
      CallablePeersCount(rest, own);
      assert Ids(users) == [users[0].id] + Ids(rest);
      if own == Some(users[0].id) {
        assert own.value !in Ids(rest) by {
          forall i | 0 <= i < |rest| ensures Ids(rest)[i] != own.value {
            assert rest[i] == users[i + 1];
          }
        }
      }
    }
  }
}
