/**
 Stable audit identities (internal/domain/domain.go).  A content hash is taken
 to be collision-free: a digest is the text or the fields it was computed from.
 */
module Identity {
  import opened Strings

  /** A field of a candidate's input. */
  datatype Value = Text(text: string) | Truth(truth: bool)

  /** `Hash` over an encoded value.  `Blank` is the empty string, no hash at all. */
  datatype Digest =
    | Blank
    | OfText(text: string)
    | OfInput(fields: map<string, Value>)
    | OfEvent(previous: Digest, id: nat, key: Digest, labels: seq<string>, at: int)

  const UNIT := '\U{1F}'

  predicate IdStart(c: char) {
    'a' <= c <= 'z' || 'A' <= c <= 'Z' || '0' <= c <= '9'
  }

  predicate IdChar(c: char) {
    IdStart(c) || c in {'_', '.', ':', '@', '/', '-'}
  }

  predicate ValidID(s: string) {
    1 <= |s| <= 160 && IdStart(s[0]) && forall i :: 0 <= i < |s| ==> IdChar(s[i])
  }

  predicate AllValid(ids: seq<string>) {
    ids != [] && forall i :: 0 <= i < |ids| ==> ValidID(ids[i])
  }

  /** Scopes natural keys to their source, with the ids in sorted order. */
  function EntityID(source: string, ids: seq<string>): string {
    source + ['|'] + Join(Sort(ids), '|')
  }

  function ExceptionKey(rule: string, entity: string, id: string, period: string): Digest {
    OfText(Join([rule, entity, id, period], UNIT))
  }

  lemma SortKeepsValid(ids: seq<string>)
    requires AllValid(ids)
    ensures AllValid(Sort(ids)) && AllFree(Sort(ids), '|') && AllFree(Sort(ids), UNIT)
  {
    var s := Sort(ids);
    assert |multiset(s)| == |multiset(ids)|;
    forall i | 0 <= i < |s|
      ensures ValidID(s[i])
    {
      assert s[i] in multiset(s);
      assert s[i] in multiset(ids);
    }
  }

  /** Two entity ids agree exactly when the source and the unordered ids agree. */
  lemma EntityIDInjective(s: string, p: seq<string>, t: string, q: seq<string>)
    requires ValidID(s) && ValidID(t) && AllValid(p) && AllValid(q)
    ensures EntityID(s, p) == EntityID(t, q) <==> s == t && multiset(p) == multiset(q)
  {
    SortIgnoresOrder(p, q);
    if EntityID(s, p) == EntityID(t, q) {
      SortKeepsValid(p);
      SortKeepsValid(q);
      SplitAtFirst(s, Join(Sort(p), '|'), t, Join(Sort(q), '|'), '|');
      JoinInjective(Sort(p), Sort(q), '|');
    }
  }

  /** The order in which the ids of a pair are given does not matter. */
  lemma EntityIDUnordered(source: string, a: string, b: string)
    ensures EntityID(source, [a, b]) == EntityID(source, [b, a])
  {
    assert multiset([a, b]) == multiset([b, a]);
    SortIgnoresOrder([a, b], [b, a]);
  }

  predicate KeyPart(s: string) {
    Free(s, UNIT)
  }

  lemma EntityIDIsKeyPart(source: string, ids: seq<string>)
    requires ValidID(source) && AllValid(ids)
    ensures KeyPart(EntityID(source, ids))
  {
    SortKeepsValid(ids);
    JoinFree(Sort(ids), '|', UNIT);
  }

  /** A finding's key determines its rule, entity, entity id and period. */
  lemma ExceptionKeyInjective(r: string, e: string, i: string, p: string, r': string, e': string, i': string,
      p': string)
    requires KeyPart(r) && KeyPart(e) && KeyPart(i) && KeyPart(p)
    requires KeyPart(r') && KeyPart(e') && KeyPart(i') && KeyPart(p')
    ensures ExceptionKey(r, e, i, p) == ExceptionKey(r', e', i', p')
       <==> r == r' && e == e' && i == i' && p == p'
  {
    if ExceptionKey(r, e, i, p) == ExceptionKey(r', e', i', p') {
      var a, b := [r, e, i, p], [r', e', i', p'];
      JoinInjective(a, b, UNIT);
      assert a[0] == b[0] && a[1] == b[1] && a[2] == b[2] && a[3] == b[3];
    }
  }
}
