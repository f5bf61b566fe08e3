/** Broker lists: parsing a comma-separated string into a list, printing the list, validity. */
module Brokers {

  /** Puts one more character in front of a string that has been split. */
  function Prepend(c: char, pieces: seq<string>): (r: seq<string>)
    requires pieces != []
    ensures r != []
  {
    if c == ',' then [""] + pieces else [[c] + pieces[0]] + pieces[1..]
  }

  /** The standard library's split of a string at every comma; never empty. */
  function Split(s: string): (pieces: seq<string>)
    ensures pieces != []
  {
    if s == "" then [""] else Prepend(s[0], Split(s[1..]))
  }

  /** The standard library's join with commas. */
  function Join(ss: seq<string>): string {
    if ss == [] then ""
    else if |ss| == 1 then ss[0]
    else ss[0] + "," + Join(ss[1..])
  }

  /** Address validity: not empty, and accepted by the network address validator. */
  predicate ValidAddr(validate: string -> bool, addr: string) {
    addr != "" && validate(addr)
  }

  function Keep(validate: string -> bool, pieces: seq<string>): seq<string> {
    if pieces == [] then []
    else (if ValidAddr(validate, pieces[0]) then [pieces[0]] else []) + Keep(validate, pieces[1..])
  }

  /** What a broker string means: its valid pieces, in order. */
  function Parse(validate: string -> bool, s: string): seq<string> {
    Keep(validate, Split(s))
  }

  /** A broker list as a slice: it can be nil, which is not the same as empty. */
  class KafkaBrokers {
    const validate: string -> bool
    var isNil: bool
    var list: seq<string>

    ghost predicate Valid()
      reads this
    {
      isNil ==> list == []
    }

    /** A declared but unassigned list. */
    constructor (validate: string -> bool)
      ensures Valid() && isNil && list == [] && this.validate == validate
    {
      this.validate := validate;
      isNil, list := true, [];
    }

    method AddFromString(brokers: string)
      requires Valid()
      modifies this
      ensures Valid() && list == old(list) + Parse(validate, brokers)
      ensures isNil <==> old(isNil) && Parse(validate, brokers) == []
    {
      var pieces := Split(brokers);
      var i := 0;
      while i < |pieces|
        invariant 0 <= i <= |pieces| && Valid()
        invariant list + Keep(validate, pieces[i..]) == old(list) + Parse(validate, brokers)
        invariant isNil <==> old(isNil) && list == old(list)
        invariant |list| >= |old(list)|
      {
        assert pieces[i..] == [pieces[i]] + pieces[i + 1..];
        if ValidAddr(validate, pieces[i]) {
          list := list + [pieces[i]];
          isNil := false;
        }
        i := i + 1;
      }
    }

    method String() returns (s: string)
      ensures s == Join(list)
    {
      var ss := [];
      for i := 0 to |list|
        invariant ss == list[..i]
      {
        ss := ss + [list[i]];
      }
      assert list[..|list|] == list;
      s := Join(ss);
    }

    method ToStringSlice() returns (result: seq<string>)
      ensures result == list
    {
      result := [];
      for i := 0 to |list|
        invariant result == list[..i]
      {
        result := result + [list[i]];
      }
    }

    method IsValid() returns (ok: bool)
      ensures ok <==> !isNil && forall i :: 0 <= i < |list| ==> list[i] != "" && validate(list[i])
    {
      if isNil {
        return false;
      }
      for i := 0 to |list|
        invariant forall j :: 0 <= j < i ==> ValidAddr(validate, list[j])
      {
        if !ValidAddr(validate, list[i]) {
          return false;
        }
      }
      return true;
    }
  }

  // ------------------------------------------------- splitting and joining

  ghost predicate NoComma(s: string) {
    ',' !in s
  }

  lemma {:induction false} SplitHasNoCommas(s: string)
    ensures forall i :: 0 <= i < |Split(s)| ==> NoComma(Split(s)[i])
  {
    if s != "" {
      SplitHasNoCommas(s[1..]);
    }
  }

  lemma {:induction false} SplitWhole(s: string)
    requires NoComma(s)
    ensures Split(s) == [s]
  {
    if s != "" {
      SplitWhole(s[1..]);
      assert s == [s[0]] + s[1..];
    }
  }

  lemma PrependConcat(c: char, left: seq<string>, right: seq<string>)
    requires left != []
    ensures Prepend(c, left + right) == Prepend(c, left) + right
  {
    assert (left + right)[1..] == left[1..] + right;
  }

  lemma SplitCons(c: char, s: string)
    ensures Split([c] + s) == Prepend(c, Split(s))
  {
    assert ([c] + s)[1..] == s;
  }

  /** Splitting at a comma splits the two sides separately. */
  lemma {:induction false} SplitAtComma(a: string, b: string)
    ensures Split(a + "," + b) == Split(a) + Split(b)
  {
    if a == "" {
      assert a + "," + b == [','] + b;
      SplitCons(',', b);
    } else {
      SplitAtComma(a[1..], b);
      assert a + "," + b == [a[0]] + (a[1..] + "," + b);
      SplitCons(a[0], a[1..] + "," + b);
      PrependConcat(a[0], Split(a[1..]), Split(b));
    }
  }

  /** Joining undoes splitting, for every string. */
  lemma {:induction false} JoinSplit(s: string)
    ensures Join(Split(s)) == s
  {
    if s != "" {
      JoinSplit(s[1..]);
      var rest := Split(s[1..]);
      if s[0] == ',' {
        assert ([""] + rest)[1..] == rest;
        assert s == "" + "," + s[1..];
      } else {
        var first := [s[0]] + rest[0];
        assert ([first] + rest[1..])[1..] == rest[1..];
        assert s == [s[0]] + s[1..];
        if |rest| > 1 { assert first + "," + Join(rest[1..]) == [s[0]] + (rest[0] + "," + Join(rest[1..])); }
      }
    }
  }

  /** Splitting undoes joining, for every non-empty list of comma-free strings. */
  lemma {:induction false} SplitJoin(ss: seq<string>)
    requires ss != [] && forall i :: 0 <= i < |ss| ==> NoComma(ss[i])
    ensures Split(Join(ss)) == ss
  {
    SplitWhole(ss[0]);
    if |ss| > 1 {
      var rest := ss[1..];
      SplitJoin(rest);
      SplitAtComma(ss[0], Join(rest));
      assert Join(ss) == ss[0] + "," + Join(rest);
      assert ss == [ss[0]] + rest;
    }
  }

  // ------------------------------------------------------------ round trips

  lemma {:induction false} KeepConcat(validate: string -> bool, a: seq<string>, b: seq<string>)
    ensures Keep(validate, a + b) == Keep(validate, a) + Keep(validate, b)
  {
    if a == [] {
      assert a + b == b;
    } else {
      var all := a + b;
      assert all[0] == a[0] && all[1..] == a[1..] + b;
      KeepConcat(validate, a[1..], b);
    }
  }

  lemma {:induction false} KeepKeeps(validate: string -> bool, a: seq<string>)
    ensures forall x :: x in Keep(validate, a) <==> x in a && ValidAddr(validate, x)
  {
    if a != [] {
      KeepKeeps(validate, a[1..]);
    }
  }

  lemma {:induction false} KeepAll(validate: string -> bool, a: seq<string>)
    requires forall x :: x in a ==> ValidAddr(validate, x)
    ensures Keep(validate, a) == a
  {
    if a != [] {
      KeepAll(validate, a[1..]);
    }
  }

  /** Printing a parsed list and parsing it again gives the same list, for every string. */
  lemma PrintParseRoundTrip(validate: string -> bool, s: string)
    ensures Parse(validate, Join(Parse(validate, s))) == Parse(validate, s)
  {
    var list := Parse(validate, s);
    KeepKeeps(validate, Split(s));
    SplitHasNoCommas(s);
    if list != [] {
      forall i | 0 <= i < |list|
        ensures NoComma(list[i])
      {
        assert list[i] in Split(s);
      }
      SplitJoin(list);
      KeepAll(validate, list);
    }
  }

  /** A string without a comma is one piece, kept exactly if it is not empty and validates. */
  lemma ParseOne(validate: string -> bool, s: string)
    requires ',' !in s
    ensures Parse(validate, s) == if s != "" && validate(s) then [s] else []
  {
    SplitWhole(s);
    assert [s][1..] == [] && ValidAddr(validate, s) == (s != "" && validate(s));
    assert Keep(validate, [s]) == (if ValidAddr(validate, s) then [s] else []) + Keep(validate, [s][1..]);
  }

  /** Joining puts a comma between neighbours and nowhere else. */
  lemma {:induction false} JoinAppends(ss: seq<string>, s: string)
    ensures Join([]) == "" && Join([s]) == s
    ensures ss != [] ==> Join(ss + [s]) == Join(ss) + "," + s
  {
    var all := ss + [s];
    if |ss| > 1 {
      JoinAppends(ss[1..], s);
      assert all[0] == ss[0] && all[1..] == ss[1..] + [s];
      assert Join(all) == ss[0] + "," + Join(all[1..]);
    } else if |ss| == 1 {
      assert all[0] == ss[0] && all[1..] == [s];
    }
  }

  /** Parsing two strings joined by a comma appends the two parses in order. */
  lemma ParseAppends(validate: string -> bool, a: string, b: string)
    ensures Parse(validate, a + "," + b) == Parse(validate, a) + Parse(validate, b)
  {
    SplitAtComma(a, b);
    KeepConcat(validate, Split(a), Split(b));
  }

  /** The option that fills a nil list from a string and refuses an invalid result: it accepts
      exactly the strings with a valid piece, and drops the invalid pieces of those silently. */
  method WithKafkaBrokers(validate: string -> bool, s: string) returns (ok: bool, brokers: seq<string>)
    ensures ok <==> exists piece :: piece in Split(s) && piece != "" && validate(piece)
    ensures ok ==> brokers == Parse(validate, s)
    ensures ok ==> forall i :: 0 <= i < |brokers| ==> brokers[i] != "" && validate(brokers[i])
  {
    var kafkaBrokers := new KafkaBrokers(validate);
    kafkaBrokers.AddFromString(s);
    ok := kafkaBrokers.IsValid();
    brokers := kafkaBrokers.ToStringSlice();
    KeepKeeps(validate, Split(s));
    assert kafkaBrokers.list == Parse(validate, s);
    assert forall piece :: ValidAddr(validate, piece) <==> piece != "" && validate(piece);
    assert forall i :: 0 <= i < |kafkaBrokers.list| ==> kafkaBrokers.list[i] in Parse(validate, s);
    assert Parse(validate, s) != [] ==> Parse(validate, s)[0] in Parse(validate, s);
  }
}
