/**
 * JSON values as the relay sees them after decoding. An object is kept as
 * the member list of its text, repeated keys included; `ToMap` gives the
 * dict a member list denotes (a later member with the same key wins) and
 * `Items` gives the ordered items of the dict `json.loads` builds from it
 * (each key once, at the place it first appears, with its last value).
 */
module Json {
  import opened Base

  datatype Value =
    | Null
    | Bool(b: bool)
    | Int(i: int)
    | Real(r: real)
    | Str(s: string)
    | Arr(items: seq<Value>)
    | Obj(members: seq<Member>)

  datatype Member = Member(key: string, value: Value)

  /** The keys of a member list. */
  function KeySet(members: seq<Member>): set<string>
  {
    set i | 0 <= i < |members| :: members[i].key
  }

  /** The dict a member list denotes: members assigned in order, so a later member with the same key wins. */
  function ToMap(members: seq<Member>): map<string, Value>
  {
    if members == [] then map[]
    else ToMap(members[..|members| - 1])[members[|members| - 1].key := members[|members| - 1].value]
  }

  lemma ToMapSnoc(init: seq<Member>, last: Member)
    ensures ToMap(init + [last]) == ToMap(init)[last.key := last.value]
  {
    assert (init + [last])[..|init|] == init;
  }

  /** The dict of a literal object with three members. */
  lemma ToMapOfThree(a: Member, b: Member, c: Member)
    ensures ToMap([a, b, c]) == map[a.key := a.value][b.key := b.value][c.key := c.value]
  {
    ToMapSnoc([], a);
    ToMapSnoc([a], b);
    ToMapSnoc([a, b], c);
    assert [a] == [] + [a] && [a, b] == [a] + [b] && [a, b, c] == [a, b] + [c];
  }

  /** The dict of a literal object with four members. */
  lemma ToMapOfFour(a: Member, b: Member, c: Member, d: Member)
    ensures ToMap([a, b, c, d]) == map[a.key := a.value][b.key := b.value][c.key := c.value][d.key := d.value]
  {
    ToMapOfThree(a, b, c);
    ToMapSnoc([a, b, c], d);
    assert [a, b, c, d] == [a, b, c] + [d];
  }

  /** The dict of a literal object with six members. */
  lemma ToMapOfSix(a: Member, b: Member, c: Member, d: Member, e: Member, f: Member)
    ensures ToMap([a, b, c, d, e, f]) == ToMap([a, b, c, d])[e.key := e.value][f.key := f.value]
  {
    ToMapSnoc([a, b, c, d], e);
    ToMapSnoc([a, b, c, d, e], f);
    assert [a, b, c, d, e] == [a, b, c, d] + [e];
    assert [a, b, c, d, e, f] == [a, b, c, d, e] + [f];
  }

  lemma {:induction false} KeySetSnoc(init: seq<Member>, last: Member)
    ensures KeySet(init + [last]) == KeySet(init) + {last.key}
  {
    var ms := init + [last];
    assert forall i :: 0 <= i < |init| ==> ms[i] == init[i];
    forall k | k in KeySet(ms) ensures k in KeySet(init) + {last.key} {
      var i :| 0 <= i < |ms| && ms[i].key == k;
      if i < |init| { assert init[i].key == k; }
    }
    assert ms[|init|] == last;
  }

  /** The dict has exactly the keys of the member list. */
  lemma {:induction false} ToMapKeys(members: seq<Member>)
    ensures ToMap(members).Keys == KeySet(members)
  {
    if members != [] {
      var init, last := members[..|members| - 1], members[|members| - 1];
      assert members == init + [last];
      ToMapKeys(init);
      KeySetSnoc(init, last);
    }
  }

  /** Each key is bound to the value of its last member. */
  lemma {:induction false} ToMapLastWins(members: seq<Member>, i: nat)
    requires i < |members|
    requires forall j :: i < j < |members| ==> members[j].key != members[i].key
    ensures members[i].key in ToMap(members) && ToMap(members)[members[i].key] == members[i].value
  {
    if i < |members| - 1 {
      var init := members[..|members| - 1];
      assert init[i] == members[i];
      ToMapLastWins(init, i);
    }
  }

  /** No key occurs twice. */
  predicate DistinctKeys(members: seq<Member>)
  {
    forall i, j :: 0 <= i < j < |members| ==> members[i].key != members[j].key
  }

  lemma DistinctSnoc(init: seq<Member>, last: Member)
    ensures DistinctKeys(init + [last]) <==> DistinctKeys(init) && last.key !in KeySet(init)
  {
    var ms := init + [last];
    assert forall i :: 0 <= i < |init| ==> ms[i] == init[i];
    assert ms[|init|] == last;
    if DistinctKeys(ms) {
      forall i | 0 <= i < |init| ensures init[i].key != last.key {
        assert ms[i].key != ms[|init|].key;
      }
    }
    if DistinctKeys(init) && last.key !in KeySet(init) {
      forall i, j | 0 <= i < j < |ms| ensures ms[i].key != ms[j].key {
        assert init[i].key in KeySet(init);
      }
    }
  }

  /** In a member list without repeats, every member's value is what the dict holds for its key. */
  lemma ToMapDistinct(members: seq<Member>)
    requires DistinctKeys(members)
    ensures forall i :: 0 <= i < |members| ==> members[i].key in ToMap(members) && ToMap(members)[members[i].key] == members[i].value
  {
    forall i | 0 <= i < |members|
      ensures members[i].key in ToMap(members) && ToMap(members)[members[i].key] == members[i].value
    {
      ToMapLastWins(members, i);
    }
  }

  /** `d[key] = value` on a dict's items: a present key keeps its place and takes the new value, a new key goes last. */
  function Assign(items: seq<Member>, m: Member): seq<Member>
  {
    if items == [] then [m]
    else if items[0].key == m.key then [m] + items[1..]
    else [items[0]] + Assign(items[1..], m)
  }

  lemma {:induction false} AssignPresent(items: seq<Member>, m: Member, p: nat)
    requires DistinctKeys(items) && p < |items| && items[p].key == m.key
    ensures Assign(items, m) == items[p := m]
  {
    if p == 0 {
      assert [m] + items[1..] == items[0 := m];
    } else {
      assert items[0].key != items[p].key;
      var tail := items[1..];
      assert forall i :: 0 <= i < |tail| ==> tail[i] == items[i + 1];
      assert tail[p - 1] == items[p];
      AssignPresent(tail, m, p - 1);
      assert [items[0]] + tail[p - 1 := m] == items[p := m];
    }
  }

  lemma {:induction false} AssignAbsent(items: seq<Member>, m: Member)
    requires m.key !in KeySet(items)
    ensures Assign(items, m) == items + [m]
  {
    if items != [] {
      assert items[0].key in KeySet(items);
      var tail := items[1..];
      assert forall i :: 0 <= i < |tail| ==> tail[i] == items[i + 1];
      assert KeySet(tail) <= KeySet(items) by {
        forall k | k in KeySet(tail) ensures k in KeySet(items) {
          var i :| 0 <= i < |tail| && tail[i].key == k;
          assert items[i + 1].key == k;
        }
      }
      AssignAbsent(tail, m);
      assert [items[0]] + (tail + [m]) == items + [m];
    }
  }

  /** The items of the dict `json.loads` builds from an object's members, in the dict's order. */
  function Items(members: seq<Member>): seq<Member>
  {
    if members == [] then []
    else Assign(Items(members[..|members| - 1]), members[|members| - 1])
  }

  lemma ItemsSnoc(init: seq<Member>, last: Member)
    ensures Items(init + [last]) == Assign(Items(init), last)
  {
    assert (init + [last])[..|init|] == init;
  }

  /** Overwriting one member of a list without repeats by one with the same key updates that key of the dict. */
  lemma ToMapOverwrite(items: seq<Member>, m: Member, p: nat)
    requires DistinctKeys(items) && p < |items| && items[p].key == m.key
    ensures DistinctKeys(items[p := m]) && KeySet(items[p := m]) == KeySet(items)
    ensures ToMap(items[p := m]) == ToMap(items)[m.key := m.value]
  {
    var r := items[p := m];
    assert forall i :: 0 <= i < |r| ==> r[i].key == items[i].key;
    assert KeySet(r) == KeySet(items);
    ToMapKeys(r);
    ToMapKeys(items);
    var lhs, rhs := ToMap(r), ToMap(items)[m.key := m.value];
    assert lhs.Keys == rhs.Keys;
    forall k | k in lhs.Keys ensures lhs[k] == rhs[k] {
      var i :| 0 <= i < |r| && r[i].key == k;
      ToMapOverwriteAt(items, m, p, i);
    }
  }

  lemma ToMapOverwriteAt(items: seq<Member>, m: Member, p: nat, i: nat)
    requires DistinctKeys(items) && p < |items| && items[p].key == m.key && i < |items|
    ensures var r := items[p := m];
      && r[i].key in ToMap(r)
      && (i == p ==> ToMap(r)[r[i].key] == m.value)
      && (i != p ==> items[i].key in ToMap(items) && ToMap(r)[r[i].key] == ToMap(items)[items[i].key])
  {
    var r := items[p := m];
    assert DistinctKeys(r) by {
      assert forall j :: 0 <= j < |r| ==> r[j].key == items[j].key;
    }
    ToMapLastWins(r, i);
    if i != p {
      ToMapLastWins(items, i);
    }
  }

  /** `Items` is a dict: no repeated key, the same keys and the same values as the member list. */
  lemma {:induction false} ItemsAreDict(members: seq<Member>)
    ensures DistinctKeys(Items(members))
    ensures KeySet(Items(members)) == KeySet(members)
    ensures ToMap(Items(members)) == ToMap(members)
  {
    if members != [] {
      var init, last := members[..|members| - 1], members[|members| - 1];
      assert members == init + [last];
      ItemsAreDict(init);
      ItemsSnoc(init, last);
      KeySetSnoc(init, last);
      ToMapSnoc(init, last);
      var d := Items(init);
      if last.key in KeySet(d) {
        var p :| 0 <= p < |d| && d[p].key == last.key;
        AssignPresent(d, last, p);
        ToMapOverwrite(d, last, p);
      } else {
        AssignAbsent(d, last);
        DistinctSnoc(d, last);
        KeySetSnoc(d, last);
        ToMapSnoc(d, last);
      }
    }
  }

  /** An object without repeated keys is its own dict. */
  lemma {:induction false} ItemsOfDistinct(members: seq<Member>)
    requires DistinctKeys(members)
    ensures Items(members) == members
  {
    if members != [] {
      var init, last := members[..|members| - 1], members[|members| - 1];
      assert members == init + [last];
      DistinctSnoc(init, last);
      ItemsOfDistinct(init);
      ItemsSnoc(init, last);
      AssignAbsent(init, last);
    }
  }

  /** The position of the first member with key `k` at or after `i`, or `|members|` when there is none. */
  function FirstFrom(members: seq<Member>, k: string, i: nat): nat
    decreases |members| - i
  {
    if i >= |members| then |members|
    else if members[i].key == k then i
    else FirstFrom(members, k, i + 1)
  }

  /** The position where key `k` first appears in the object's text. */
  function FirstAt(members: seq<Member>, k: string): nat
  {
    FirstFrom(members, k, 0)
  }

  lemma {:induction false} FirstFromFound(members: seq<Member>, k: string, i: nat, j: nat)
    requires i <= j < |members| && members[j].key == k
    ensures FirstFrom(members, k, i) <= j
    decreases j - i
  {
    if members[i].key != k {
      FirstFromFound(members, k, i + 1, j);
    }
  }

  lemma {:induction false} FirstFromSnoc(init: seq<Member>, last: Member, k: string, i: nat)
    requires i <= |init|
    ensures FirstFrom(init, k, i) <= |init|
    ensures FirstFrom(init + [last], k, i) ==
      if FirstFrom(init, k, i) < |init| then FirstFrom(init, k, i)
      else if last.key == k then |init| else |init| + 1
    decreases |init| - i
  {
    var ms := init + [last];
    if i < |init| {
      assert ms[i] == init[i];
      if init[i].key != k {
        FirstFromSnoc(init, last, k, i + 1);
      }
    } else {
      assert ms[i] == last;
      if last.key != k {
        assert FirstFrom(ms, k, i + 1) == |ms|;
      }
    }
  }

  /** Adding a member at the end does not move where an already present key first appears; a new key first appears there. */
  lemma FirstAtSnoc(init: seq<Member>, last: Member, k: string)
    ensures k in KeySet(init) ==> FirstAt(init + [last], k) == FirstAt(init, k) < |init|
    ensures k !in KeySet(init) && k == last.key ==> FirstAt(init + [last], k) == |init|
  {
    FirstFromSnoc(init, last, k, 0);
    if k in KeySet(init) {
      var j :| 0 <= j < |init| && init[j].key == k;
      FirstFromFound(init, k, 0, j);
    } else if FirstFrom(init, k, 0) < |init| {
      FirstFromKey(init, k, 0);
    }
  }

  lemma {:induction false} FirstFromKey(members: seq<Member>, k: string, i: nat)
    requires FirstFrom(members, k, i) < |members|
    ensures members[FirstFrom(members, k, i)].key == k
    decreases |members| - i
  {
    if members[i].key != k {
      FirstFromKey(members, k, i + 1);
    }
  }

  /** The items `d` come in the order in which their keys first appear in `members`. */
  predicate InFirstOrder(d: seq<Member>, members: seq<Member>)
  {
    forall p, q :: 0 <= p < q < |d| ==> FirstAt(members, d[p].key) < FirstAt(members, d[q].key)
  }

  lemma OrderOverwrite(d: seq<Member>, p0: nat, m: Member, init: seq<Member>, ms: seq<Member>)
    requires InFirstOrder(d, init) && p0 < |d| && d[p0].key == m.key
    requires forall p :: 0 <= p < |d| ==> FirstAt(ms, d[p].key) == FirstAt(init, d[p].key)
    ensures InFirstOrder(d[p0 := m], ms)
  {
    var d' := d[p0 := m];
    assert forall p :: 0 <= p < |d'| ==> d'[p].key == d[p].key;
  }

  lemma OrderAppend(d: seq<Member>, m: Member, init: seq<Member>, ms: seq<Member>)
    requires InFirstOrder(d, init)
    requires forall p :: 0 <= p < |d| ==> FirstAt(ms, d[p].key) == FirstAt(init, d[p].key) < FirstAt(ms, m.key)
    ensures InFirstOrder(d + [m], ms)
  {
    var d' := d + [m];
    assert forall p :: 0 <= p < |d| ==> d'[p] == d[p];
    assert d'[|d|] == m;
  }

  /** Where a key of the dict first appears does not move when a member is added at the end. */
  lemma FirstAtKept(init: seq<Member>, last: Member, d: seq<Member>)
    requires KeySet(d) == KeySet(init)
    ensures forall p :: 0 <= p < |d| ==> FirstAt(init + [last], d[p].key) == FirstAt(init, d[p].key) < |init|
  {
    forall p | 0 <= p < |d| ensures FirstAt(init + [last], d[p].key) == FirstAt(init, d[p].key) < |init| {
      assert d[p].key in KeySet(d);
      FirstAtSnoc(init, last, d[p].key);
    }
  }

  /** One member more keeps the dict's items in first-appearance order. */
  lemma ItemsInFirstOrderStep(init: seq<Member>, last: Member)
    requires InFirstOrder(Items(init), init)
    ensures InFirstOrder(Items(init + [last]), init + [last])
  {
    var ms := init + [last];
    ItemsAreDict(init);
    ItemsSnoc(init, last);
    var d := Items(init);
    FirstAtKept(init, last, d);
    if last.key in KeySet(d) {
      var p0 :| 0 <= p0 < |d| && d[p0].key == last.key;
      AssignPresent(d, last, p0);
      OrderOverwrite(d, p0, last, init, ms);
    } else {
      AssignAbsent(d, last);
      FirstAtSnoc(init, last, last.key);
      OrderAppend(d, last, init, ms);
    }
  }

  /** The dict's items come in the order in which their keys first appear in the object's text. */
  lemma {:induction false} ItemsInFirstOrder(members: seq<Member>)
    ensures InFirstOrder(Items(members), members)
  {
    if members != [] {
      var init, last := members[..|members| - 1], members[|members| - 1];
      assert members == init + [last];
      ItemsInFirstOrder(init);
      ItemsInFirstOrderStep(init, last);
    }
  }

  /** Python's `obj.get(key)` on a decoded object. */
  function Get(v: Value, key: string): Option<Value>
  {
    if v.Obj? && key in ToMap(v.members) then Some(ToMap(v.members)[key]) else None
  }

  /** Python's type name of a decoded value, as error messages quote it. */
  function TypeName(v: Value): string
  {
    match v
    case Null => "NoneType"
    case Bool(_) => "bool"
    case Int(_) => "int"
    case Real(_) => "float"
    case Str(_) => "str"
    case Arr(_) => "list"
    case Obj(_) => "dict"
  }

  /** `{"ok": false, "error": message}`. */
  function ErrorReply(message: string): (r: Value)
    ensures Get(r, "ok") == Some(Bool(false)) && Get(r, "error") == Some(Str(message))
  {
    var ms := [Member("ok", Bool(false)), Member("error", Str(message))];
    assert ToMap(ms) == map["ok" := Bool(false), "error" := Str(message)] by {
      ToMapSnoc([], ms[0]);
      ToMapSnoc([ms[0]], ms[1]);
      assert ms == [ms[0]] + [ms[1]];
    }
    Obj(ms)
  }
}
