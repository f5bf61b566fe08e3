/** Kafka messages with headers, and what a header list says about one key. */
module Headers {
  import opened Wrappers

  datatype Header = Header(key: string, value: string)

  datatype ProducerMessage = ProducerMessage(topic: string, key: string, value: string, headers: seq<Header>)

  datatype ConsumerMessage = ConsumerMessage(
    key: string, value: string, headers: seq<Header>, partition: nat, offset: nat)

  type Uuid = nat

  /** Why a storage refuses a message: its key is no UUID, or a header does not parse. */
  datatype Error = BadKey(text: string) | BadHeader(header: Header)

  /** The broker adds a position and carries key, value and headers unchanged. */
  function Delivered(m: ProducerMessage, partition: nat, offset: nat): ConsumerMessage {
    ConsumerMessage(m.key, m.value, m.headers, partition, offset)
  }

  predicate Any(value: string) {
    true
  }

  predicate NonEmpty(value: string) {
    value != ""
  }

  /** The texts that both stand for "no number". */
  predicate NonZero(value: string) {
    value != "" && value != "0"
  }

  /** The value of the last header with this key whose value is not skipped. */
  function Last(hs: seq<Header>, key: string, keep: string -> bool): Option<string> {
    if hs == [] then None
    else
      var h := hs[|hs| - 1];
      if h.key == key && keep(h.value) then Some(h.value) else Last(hs[..|hs| - 1], key, keep)
  }

  lemma LastAppend(hs: seq<Header>, h: Header, key: string, keep: string -> bool)
    ensures Last(hs + [h], key, keep)
         == if h.key == key && keep(h.value) then Some(h.value) else Last(hs, key, keep)
  {
    assert (hs + [h])[..|hs|] == hs;
  }

  function TextOr(o: Option<string>, default: string): string {
    match o case None => default case Some(v) => v
  }

  /** `Last` in terms of positions. */
  lemma {:induction false} LastIsLast(hs: seq<Header>, key: string, keep: string -> bool)
    ensures Last(hs, key, keep).None? <==>
            forall i :: 0 <= i < |hs| ==> !(hs[i].key == key && keep(hs[i].value))
    ensures Last(hs, key, keep).Some? ==>
              exists i :: 0 <= i < |hs| && hs[i] == Header(key, Last(hs, key, keep).value) && keep(hs[i].value)
                          && forall j :: i < j < |hs| ==> !(hs[j].key == key && keep(hs[j].value))
  {
    if hs != [] {
      var h, init := hs[|hs| - 1], hs[..|hs| - 1];
      if !(h.key == key && keep(h.value)) {
        LastIsLast(init, key, keep);
      } else {
        assert hs[|hs| - 1] == Header(key, h.value);
      }
    }
  }

  /** Header i is the last one with this key, not counting those with a text that is skipped. */
  ghost predicate AtLast(hs: seq<Header>, i: int, key: string, skipped: set<string>) {
    && 0 <= i < |hs| && hs[i].key == key && hs[i].value !in skipped
    && forall j :: i < j < |hs| && hs[j].key == key ==> hs[j].value in skipped
  }

  ghost predicate Absent(hs: seq<Header>, key: string, skipped: set<string>) {
    forall j :: 0 <= j < |hs| && hs[j].key == key ==> hs[j].value in skipped
  }

  /** `Last` as the value at that position, when `keep` refuses just those texts. */
  lemma {:induction false} LastMeans(hs: seq<Header>, key: string, keep: string -> bool, skipped: set<string>)
    requires forall v :: keep(v) <==> v !in skipped
    ensures forall i :: AtLast(hs, i, key, skipped) ==> Last(hs, key, keep) == Some(hs[i].value)
    ensures Absent(hs, key, skipped) ==> Last(hs, key, keep).None?
  {
    LastIsLast(hs, key, keep);
    forall i | AtLast(hs, i, key, skipped)
      ensures Last(hs, key, keep) == Some(hs[i].value)
    {
      var v := Last(hs, key, keep).value;
      var k :| 0 <= k < |hs| && hs[k] == Header(key, v) && keep(hs[k].value)
               && forall j :: k < j < |hs| ==> !(hs[j].key == key && keep(hs[j].value));
      assert k == i;
    }
  }

  ghost predicate DistinctKeys(hs: seq<Header>) {
    forall i, j :: 0 <= i < j < |hs| ==> hs[i].key != hs[j].key
  }

  /** With distinct keys position no longer matters: what counts is membership. */
  lemma LastOfDistinct(hs: seq<Header>, key: string, keep: string -> bool, v: string)
    requires DistinctKeys(hs)
    ensures Last(hs, key, keep) == Some(v) <==> Header(key, v) in hs && keep(v)
  {
    LastIsLast(hs, key, keep);
  }

  lemma SameMembers(a: seq<Header>, b: seq<Header>)
    requires multiset(a) == multiset(b)
    ensures forall h :: h in a <==> h in b
  {
    forall h
      ensures h in a <==> h in b
    {
      assert h in a <==> h in multiset(a);
      assert h in b <==> h in multiset(b);
    }
  }

  /** Permuting headers with distinct keys leaves every lookup unchanged. */
  lemma LastPermutes(a: seq<Header>, b: seq<Header>, key: string, keep: string -> bool)
    requires DistinctKeys(a) && multiset(a) == multiset(b)
    ensures Last(a, key, keep) == Last(b, key, keep)
  {
    SameMembers(a, b);
    LastIsLast(b, key, keep);
    if Last(b, key, keep).Some? {
      LastOfDistinct(a, key, keep, Last(b, key, keep).value);
    } else if Last(a, key, keep).Some? {
      LastOfDistinct(a, key, keep, Last(a, key, keep).value);
    }
  }
}
