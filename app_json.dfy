/**
 * recursiveFindAndReplace: the image swap the editor applies to a page plan after an image
 * was edited. It walks a JSON value and rewrites every `src`, `imgSrc` or `videoUrl` member
 * whose value is the old image address to the new one; everything else is copied.
 *
 * A JSON object is the list of its own enumerable members in enumeration order; numbers
 * are kept as integers, since only strings are ever compared with the address.
 */
module FindReplace {

  datatype Json =
    | JNull
    | JBool(b: bool)
    | JNumber(n: int)
    | JString(s: string)
    | JArray(items: seq<Json>)
    | JObject(members: seq<Member>)

  datatype Member = Member(key: string, value: Json)

  /** The member names that hold an image or video address. */
  predicate IsSourceKey(key: string) {
    key == "src" || key == "imgSrc" || key == "videoUrl"
  }

  /** The member keeps an address equal to `address` under one of the address names. */
  predicate HoldsAddress(m: Member, address: string) {
    IsSourceKey(m.key) && m.value == JString(address)
  }

  /** The keys of an object's members, in order. */
  function Keys(members: seq<Member>): (r: seq<string>)
    ensures |r| == |members| && forall i | 0 <= i < |r| :: r[i] == members[i].key
  {
    seq(|members|, i requires 0 <= i < |members| => members[i].key)
  }

  /** The value with every address member holding `oldSrc` changed to `newSrc`. */
  function Replaced(j: Json, oldSrc: string, newSrc: string): (r: Json)
    ensures !j.JArray? && !j.JObject? ==> r == j
    ensures j.JArray? <==> r.JArray?
    ensures j.JObject? <==> r.JObject?
    ensures j.JArray? ==> |r.items| == |j.items|
    ensures j.JObject? ==> Keys(r.members) == Keys(j.members)
    decreases j
  {
    match j
    case JArray(items) =>
      JArray(seq(|items|, i requires 0 <= i < |items| => Replaced(items[i], oldSrc, newSrc)))
    case JObject(members) =>
      JObject(seq(|members|, i requires 0 <= i < |members| => ReplacedMember(members[i], oldSrc, newSrc)))
    case _ => j
  }

  /** One member of a copied object: the address swapped, or the value copied recursively. */
  function ReplacedMember(m: Member, oldSrc: string, newSrc: string): (r: Member)
    ensures r.key == m.key
    ensures HoldsAddress(m, oldSrc) ==> r.value == JString(newSrc)
    decreases m
  {
    if HoldsAddress(m, oldSrc) then Member(m.key, JString(newSrc))
    else Member(m.key, Replaced(m.value, oldSrc, newSrc))
  }

  /**
   * recursiveFindAndReplace: null and scalars come back as they are, an array is mapped
   * element by element, and an object is copied member by member.
   */
  method RecursiveFindAndReplace(obj: Json, oldSrc: string, newSrc: string) returns (r: Json)
    ensures r == Replaced(obj, oldSrc, newSrc)
    decreases obj
  {
    match obj {
      case JArray(items) =>
        var mapped: seq<Json> := [];
        var k := 0;
        while k < |items|
          invariant 0 <= k <= |items|
          invariant |mapped| == k
          invariant forall i | 0 <= i < k :: mapped[i] == Replaced(items[i], oldSrc, newSrc)
        {
          var item := RecursiveFindAndReplace(items[k], oldSrc, newSrc);
          mapped := mapped + [item];
          k := k + 1;
        }
        r := JArray(mapped);
      case JObject(members) =>
        var newObj: seq<Member> := [];
        var k := 0;
        while k < |members|
          invariant 0 <= k <= |members|
          invariant |newObj| == k
          invariant forall i | 0 <= i < k :: newObj[i] == ReplacedMember(members[i], oldSrc, newSrc)
        {
          var m := members[k];
          if HoldsAddress(m, oldSrc) {
            newObj := newObj + [Member(m.key, JString(newSrc))];
          } else {
            var value := RecursiveFindAndReplace(m.value, oldSrc, newSrc);
            newObj := newObj + [Member(m.key, value)];
          }
          k := k + 1;
        }
        r := JObject(newObj);
      case _ =>
        r := obj;
    }
  }

  /** Somewhere in the value an address member holds `address`. */
  predicate Mentions(j: Json, address: string)
    decreases j
  {
    match j
    case JArray(items) => exists i | 0 <= i < |items| :: Mentions(items[i], address)
    case JObject(members) => exists i | 0 <= i < |members| :: MemberMentions(members[i], address)
    case _ => false
  }

  predicate MemberMentions(m: Member, address: string)
    decreases m
  {
    HoldsAddress(m, address) || Mentions(m.value, address)
  }

  /** A value in which `oldSrc` is never an address comes back unchanged. */
  lemma {:induction false} UnmentionedUnchanged(j: Json, oldSrc: string, newSrc: string)
    requires !Mentions(j, oldSrc)
    ensures Replaced(j, oldSrc, newSrc) == j
    decreases j
  {
    match j
    case JArray(items) =>
      forall i | 0 <= i < |items|
        ensures Replaced(items[i], oldSrc, newSrc) == items[i]
      {
        UnmentionedUnchanged(items[i], oldSrc, newSrc);
      }
      assert Replaced(j, oldSrc, newSrc).items == items;
    case JObject(members) =>
      forall i | 0 <= i < |members|
        ensures ReplacedMember(members[i], oldSrc, newSrc) == members[i]
      {
        assert !MemberMentions(members[i], oldSrc);
        UnmentionedUnchanged(members[i].value, oldSrc, newSrc);
      }
      assert Replaced(j, oldSrc, newSrc).members == members;
    case _ =>
  }

  /** Replacing an address by itself changes nothing. */
  lemma {:induction false} SameAddressUnchanged(j: Json, src: string)
    ensures Replaced(j, src, src) == j
    decreases j
  {
    match j
    case JArray(items) =>
      forall i | 0 <= i < |items|
        ensures Replaced(items[i], src, src) == items[i]
      {
        SameAddressUnchanged(items[i], src);
      }
      assert Replaced(j, src, src).items == items;
    case JObject(members) =>
      forall i | 0 <= i < |members|
        ensures ReplacedMember(members[i], src, src) == members[i]
      {
        SameAddressUnchanged(members[i].value, src);
      }
      assert Replaced(j, src, src).members == members;
    case _ =>
  }

  /** After the swap to a different address the old address is nowhere left as an address. */
  lemma {:induction false} ReplacedForgetsOld(j: Json, oldSrc: string, newSrc: string)
    requires oldSrc != newSrc
    ensures !Mentions(Replaced(j, oldSrc, newSrc), oldSrc)
    decreases j
  {
    match j
    case JArray(items) =>
      var r := Replaced(j, oldSrc, newSrc);
      forall i | 0 <= i < |r.items|
        ensures !Mentions(r.items[i], oldSrc)
      {
        ReplacedForgetsOld(items[i], oldSrc, newSrc);
      }
    case JObject(members) =>
      var r := Replaced(j, oldSrc, newSrc);
      forall i | 0 <= i < |r.members|
        ensures !MemberMentions(r.members[i], oldSrc)
      {
        var m := members[i];
        assert r.members[i] == ReplacedMember(m, oldSrc, newSrc);
        if HoldsAddress(m, oldSrc) {
          assert r.members[i].value == JString(newSrc);
        } else {
          ReplacedForgetsOld(m.value, oldSrc, newSrc);
          assert r.members[i].value == Replaced(m.value, oldSrc, newSrc);
        }
      }
    case _ =>
  }

  /** Applying the same swap twice is applying it once. */
  lemma ReplaceIdempotent(j: Json, oldSrc: string, newSrc: string)
    ensures Replaced(Replaced(j, oldSrc, newSrc), oldSrc, newSrc) == Replaced(j, oldSrc, newSrc)
  {
    if oldSrc == newSrc {
      SameAddressUnchanged(j, oldSrc);
    } else {
      ReplacedForgetsOld(j, oldSrc, newSrc);
      UnmentionedUnchanged(Replaced(j, oldSrc, newSrc), oldSrc, newSrc);
    }
  }

  /**
   * In an object only the address members holding `oldSrc` change: they get `newSrc`,
   * and every other member keeps its key and has its value rewritten recursively.
   */
  lemma ObjectMembers(members: seq<Member>, oldSrc: string, newSrc: string, i: nat)
    requires i < |members|
    ensures Replaced(JObject(members), oldSrc, newSrc).members[i].key == members[i].key
    ensures HoldsAddress(members[i], oldSrc) ==>
      Replaced(JObject(members), oldSrc, newSrc).members[i].value == JString(newSrc)
    ensures !HoldsAddress(members[i], oldSrc) ==>
      Replaced(JObject(members), oldSrc, newSrc).members[i].value == Replaced(members[i].value, oldSrc, newSrc)
  {
  }
}
