/** The name-to-count dictionaries the dashboards fill while walking the
    order lines (`counts[name] = (counts[name] || 0) + quantity`). A
    JavaScript object lists its string keys in the order they were first
    set, so the dictionary is a list of entries in first-seen order. */
module Tally {
  /** One entry: a name and its running count. */
  datatype Sale = Sale(name: string, count: int)

  /** Adds `quantity` to the entry for `name`, creating it at the end when
      there is none. */
  function AddSale(sales: seq<Sale>, name: string, quantity: int): (r: seq<Sale>)
    ensures |r| == |sales| || |r| == |sales| + 1
  {
    if sales == [] then [Sale(name, quantity)]
    else if sales[0].name == name then [sales[0].(count := sales[0].count + quantity)] + sales[1..]
    else [sales[0]] + AddSale(sales[1..], name, quantity)
  }

  predicate NamesDistinct(sales: seq<Sale>) {
    forall i, j :: 0 <= i < j < |sales| ==> sales[i].name != sales[j].name
  }

  /** The count stored for a name, 0 when it has no entry. */
  function Count(sales: seq<Sale>, name: string): int {
    if sales == [] then 0 else if sales[0].name == name then sales[0].count else Count(sales[1..], name)
  }

  predicate Listed(sales: seq<Sale>, name: string) {
    exists k :: 0 <= k < |sales| && sales[k].name == name
  }

  /** Adding keeps one entry per name, adds the name when it is new, and
      changes the count of that name only, by `quantity`. */
  lemma {:induction false} AddSaleSpec(sales: seq<Sale>, name: string, quantity: int)
    requires NamesDistinct(sales)
    ensures NamesDistinct(AddSale(sales, name, quantity))
    ensures forall n :: Listed(AddSale(sales, name, quantity), n) <==> Listed(sales, n) || n == name
    ensures forall n ::
      Count(AddSale(sales, name, quantity), n) == Count(sales, n) + (if n == name then quantity else 0)
  {
    var r := AddSale(sales, name, quantity);
    if sales == [] {
    } else if sales[0].name == name {
      forall n
        ensures Count(r, n) == Count(sales, n) + (if n == name then quantity else 0)
      {
        if n != name {
          CountAbsentHead(sales, n);
          CountAbsentHead(r, n);
          assert r[1..] == sales[1..];
        }
      }
      forall n
        ensures Listed(r, n) <==> Listed(sales, n) || n == name
      {
        if Listed(sales, n) {
          var k :| 0 <= k < |sales| && sales[k].name == n;
          assert r[k].name == n;
        }
        if Listed(r, n) {
          var k :| 0 <= k < |r| && r[k].name == n;
          assert sales[k].name == n;
        }
      }
    } else {
      var tail := sales[1..];
      AddSaleSpec(tail, name, quantity);
      var rt := AddSale(tail, name, quantity);
      assert r == [sales[0]] + rt;
      forall n
        ensures Listed(r, n) <==> Listed(sales, n) || n == name
      {
        ListedCons(sales[0], rt, n);
        ListedCons(sales[0], tail, n);
        assert sales == [sales[0]] + tail;
      }
      forall i, j | 0 <= i < j < |r|
        ensures r[i].name != r[j].name
      {
        if i == 0 {
          assert r[j] == rt[j - 1];
          assert Listed(rt, rt[j - 1].name);
          if rt[j - 1].name != name {
            var k :| 0 <= k < |tail| && tail[k].name == rt[j - 1].name;
            assert sales[k + 1] == tail[k];
          }
        } else {
          assert r[i] == rt[i - 1] && r[j] == rt[j - 1];
        }
      }
    }
  }

  lemma CountAbsentHead(sales: seq<Sale>, n: string)
    requires sales != [] && sales[0].name != n
    ensures Count(sales, n) == Count(sales[1..], n)
  {
  }

  lemma ListedCons(s: Sale, rest: seq<Sale>, n: string)
    ensures Listed([s] + rest, n) <==> s.name == n || Listed(rest, n)
  {
    var r := [s] + rest;
    if Listed(rest, n) {
      var k :| 0 <= k < |rest| && rest[k].name == n;
      assert r[k + 1].name == n;
    }
    if s.name == n {
      assert r[0].name == n;
    }
    if Listed(r, n) && s.name != n {
      var k :| 0 <= k < |r| && r[k].name == n;
      assert rest[k - 1].name == n;
    }
  }

  /** All lines of a list of records, record after record. */
  function Lines<A, B>(s: seq<A>, items: A -> seq<B>): seq<B>
    decreases |s|
  {
    if s == [] then [] else Lines(s[..|s| - 1], items) + items(s[|s| - 1])
  }

  lemma LinesAppendOne<A, B>(s: seq<A>, i: nat, items: A -> seq<B>)
    requires i < |s|
    ensures Lines(s[..i + 1], items) == Lines(s[..i], items) + items(s[i])
  {
    assert s[..i + 1][..i] == s[..i];
  }

  /** The dictionary after walking `lines` in order. */
  function Tallied<T>(lines: seq<T>, name: T -> string, quantity: T -> int): seq<Sale>
    decreases |lines|
  {
    if lines == [] then []
    else AddSale(Tallied(lines[..|lines| - 1], name, quantity), name(lines[|lines| - 1]), quantity(lines[|lines| - 1]))
  }

  /** Σ quantity over the lines with that name. */
  function Sold<T>(lines: seq<T>, name: T -> string, quantity: T -> int, n: string): int
    decreases |lines|
  {
    if lines == [] then 0
    else
      var last := lines[|lines| - 1];
      Sold(lines[..|lines| - 1], name, quantity, n) + (if name(last) == n then quantity(last) else 0)
  }

  lemma TalliedSnoc<T>(lines: seq<T>, x: T, name: T -> string, quantity: T -> int)
    ensures Tallied(lines + [x], name, quantity) == AddSale(Tallied(lines, name, quantity), name(x), quantity(x))
  {
    assert (lines + [x])[..|lines|] == lines;
  }

  /** The dictionary lists every name that occurs once, with its total
      quantity; names that never occur have no entry. */
  lemma {:induction false} TalliedSpec<T>(lines: seq<T>, name: T -> string, quantity: T -> int)
    ensures NamesDistinct(Tallied(lines, name, quantity))
    ensures forall n :: Listed(Tallied(lines, name, quantity), n) <==> exists k :: 0 <= k < |lines| && name(lines[k]) == n
    ensures forall n :: Count(Tallied(lines, name, quantity), n) == Sold(lines, name, quantity, n)
    decreases |lines|
  {
    if lines != [] {
      var init, last := lines[..|lines| - 1], lines[|lines| - 1];
      TalliedSpec(init, name, quantity);
      AddSaleSpec(Tallied(init, name, quantity), name(last), quantity(last));
      forall n
        ensures Listed(Tallied(lines, name, quantity), n) <==> exists k :: 0 <= k < |lines| && name(lines[k]) == n
      {
        if exists k :: 0 <= k < |lines| && name(lines[k]) == n {
          var k :| 0 <= k < |lines| && name(lines[k]) == n;
          if k < |init| {
            assert init[k] == lines[k];
          }
        }
        if exists k :: 0 <= k < |init| && name(init[k]) == n {
          var k :| 0 <= k < |init| && name(init[k]) == n;
          assert lines[k] == init[k];
        }
      }
    }
  }
}
