/**
 * The server side of the todo application (src/main.rs): one shared list of
 * strings and the four request handlers that read and change it.
 *
 * The list sits behind a mutex in the source; every handler holds the lock for
 * its whole body, so each handler is modelled here as one atomic method of
 * `Store`. Every handler answers with the list as it stands after it ran.
 */
module TodoServer {

  import opened Optional

  /** The item text the source uses as its request body, as characters. */
  type Item = string

  // ---------------------------------------------------------------------------
  // Quote stripping: `value.replace("\"", "")`
  // ---------------------------------------------------------------------------

  /** The request body with every double-quote character deleted. */
  function StripQuotes(s: string): (r: string)
    ensures '"' !in r
    ensures |r| <= |s|
  {
    if s == [] then []
    else if s[0] == '"' then StripQuotes(s[1..])
    else [s[0]] + StripQuotes(s[1..])
  }

  /** A string with no quote in it passes through unchanged. */
  lemma {:induction false} StripQuotesFixesQuoteFree(s: string)
    requires '"' !in s
    ensures StripQuotes(s) == s
  {
    if s != [] {
      assert '"' !in s[1..] by {
        forall k | 0 <= k < |s[1..]| ensures s[1..][k] != '"' {
          assert s[1..][k] == s[k + 1];
        }
      }
      StripQuotesFixesQuoteFree(s[1..]);
    }
  }

  /** Stripping twice is the same as stripping once. */
  lemma StripQuotesIdempotent(s: string)
    ensures StripQuotes(StripQuotes(s)) == StripQuotes(s)
  {
    StripQuotesFixesQuoteFree(StripQuotes(s));
  }

  /** Stripping works piecewise: it deletes each quote where it stands. */
  lemma {:induction false} StripQuotesAppend(a: string, b: string)
    ensures StripQuotes(a + b) == StripQuotes(a) + StripQuotes(b)
  {
    if a == [] {
      assert a + b == b;
    } else {
      assert (a + b)[0] == a[0];
      assert (a + b)[1..] == a[1..] + b;
      StripQuotesAppend(a[1..], b);
    }
  }

  /** Every character other than the quote keeps its number of occurrences. */
  lemma {:induction false} StripQuotesKeepsOthers(s: string, c: char)
    requires c != '"'
    ensures multiset(StripQuotes(s))[c] == multiset(s)[c]
  {
    if s != [] {
      assert s == [s[0]] + s[1..];
      StripQuotesKeepsOthers(s[1..], c);
    }
  }

  // ---------------------------------------------------------------------------
  // Removing the first match: `position(|x| *x == val)` then `remove(index)`
  // ---------------------------------------------------------------------------

  /** The least index holding `x`. */
  function IndexOf(s: seq<Item>, x: Item): (i: nat)
    requires x in s
    ensures i < |s| && s[i] == x
    ensures x !in s[..i]
  {
    if s[0] == x then 0
    else
      var j := IndexOf(s[1..], x);
      assert s[..j + 1] == [s[0]] + s[1..][..j];
      j + 1
  }

  /** `Vec::remove(i)`: the sequence without its element at `i`. */
  function RemoveAt(s: seq<Item>, i: nat): (r: seq<Item>)
    requires i < |s|
    ensures |r| == |s| - 1
  {
    s[..i] + s[i + 1..]
  }

  /** The list after deleting the first item equal to `x`. */
  function RemoveFirst(s: seq<Item>, x: Item): (r: seq<Item>)
    requires x in s
    ensures |r| == |s| - 1
    ensures r[..IndexOf(s, x)] == s[..IndexOf(s, x)]
  {
    RemoveAt(s, IndexOf(s, x))
  }

  /**
   * Only the first match goes: the items before it and the items after it
   * stay in place, in order.
   */
  lemma RemoveFirstShape(s: seq<Item>, x: Item)
    requires x in s
    ensures var i := IndexOf(s, x); var r := RemoveFirst(s, x);
      |r| == |s| - 1 && r[..i] == s[..i] && x !in r[..i] &&
      forall k :: i <= k < |r| ==> r[k] == s[k + 1]
  {
  }

  /** Exactly one occurrence of `x` disappears and nothing else changes in count. */
  lemma RemoveFirstMultiset(s: seq<Item>, x: Item)
    requires x in s
    ensures multiset(RemoveFirst(s, x)) == multiset(s) - multiset{x}
  {
    var i := IndexOf(s, x);
    assert s == s[..i] + [s[i]] + s[i + 1..];
  }

  /** When `x` occurred once, it is gone afterwards. */
  lemma RemoveFirstOfSingle(s: seq<Item>, x: Item)
    requires multiset(s)[x] == 1
    ensures x !in RemoveFirst(s, x)
  {
    RemoveFirstMultiset(s, x);
  }

  /** When `x` occurred twice, one occurrence is left. */
  lemma RemoveFirstOfDuplicate(s: seq<Item>, x: Item)
    requires multiset(s)[x] == 2
    ensures x in RemoveFirst(s, x)
    ensures multiset(RemoveFirst(s, x))[x] == 1
  {
    RemoveFirstMultiset(s, x);
    assert x in multiset(RemoveFirst(s, x));
  }

  /** The iterator scan `items.iter().position(|x| *x == val)`. */
  method Position(items: seq<Item>, val: Item) returns (index: Option<nat>)
    ensures val in items ==> index == Some(IndexOf(items, val))
    ensures val !in items ==> index == None
  {
    var i := 0;
    while i < |items|
      invariant 0 <= i <= |items|
      invariant val !in items[..i]
    {
      if items[i] == val {
        return Some(i);
      }
      assert items[..i + 1] == items[..i] + [items[i]];
      i := i + 1;
    }
    assert items[..i] == items;
    return None;
  }

  // ---------------------------------------------------------------------------
  // The shared list and its handlers
  // ---------------------------------------------------------------------------

  /** The items the list holds when the server starts. */
  const Seed: seq<Item> := ["This", "Is", "Working!"]

  /** Answer of the remove handler: the new list, or no item matched. */
  datatype RemoveReply = Removed(items: seq<Item>) | NotFound

  /** The application state `State`: the list behind the mutex. */
  class Store {
    var items: seq<Item>

    /** The state built in `main`, holding the seed items. */
    constructor ()
      ensures items == Seed
    {
      items := Seed;
    }

    /** POST /api/todo (`add_data`): append the quote-free value. */
    method Add(value: string) returns (response: seq<Item>)
      modifies this
      ensures items == old(items) + [StripQuotes(value)]
      ensures response == items
    {
      items := items + [StripQuotes(value)];
      response := items;
    }

    /** PATCH /api/todo (`clear_data`): forget every item. */
    method Clear() returns (response: seq<Item>)
      modifies this
      ensures items == []
      ensures response == items
    {
      items := [];
      response := items;
    }

    /**
     * DELETE /api/todo (`remove_data`): delete the first item equal to the
     * quote-free value. Where the source unwraps a missing position, this
     * answers `NotFound` and leaves the list as it was.
     */
    method Remove(value: string) returns (response: RemoveReply)
      modifies this
      ensures StripQuotes(value) in old(items) ==>
                items == RemoveFirst(old(items), StripQuotes(value)) && response == Removed(items)
      ensures StripQuotes(value) !in old(items) ==>
                items == old(items) && response == NotFound
    {
      var val := StripQuotes(value);
      var index := Position(items, val);
      match index
      case Some(i) =>
        items := items[..i] + items[i + 1..];
        response := Removed(items);
      case None =>
        response := NotFound;
    }

    /** GET /api/todo (`get_data`): the current list, unchanged. */
    method Get() returns (response: seq<Item>)
      ensures response == items
    {
      response := items;
    }
  }

  /**
   * A run against a freshly started server: delete "Is", post "Newest",
   * clear, then read.
   */
  method SeedSession() returns (removed: RemoveReply, added: seq<Item>, cleared: seq<Item>, read: seq<Item>)
    ensures removed == Removed(["This", "Working!"])
    ensures added == ["This", "Working!", "Newest"]
    ensures cleared == [] && read == []
  {
    var store := new Store();
    StripQuotesFixesQuoteFree("Is");
    assert IndexOf(Seed, "Is") == 1 by {
      assert Seed[0] != "Is" && Seed[1] == "Is";
      assert Seed[..1] == ["This"];
    }
    removed := store.Remove("Is");
    assert ["This", "Is", "Working!"][..1] + ["This", "Is", "Working!"][2..] == ["This", "Working!"];
    StripQuotesFixesQuoteFree("Newest");
    added := store.Add("Newest");
    cleared := store.Clear();
    read := store.Get();
  }

  /** A body sent with surrounding quotes is stored without them. */
  lemma QuotedBodyStoredBare()
    ensures StripQuotes("\"hello\"") == "hello"
  {
    StripQuotesAppend("\"", "hello\"");
    StripQuotesAppend("hello", "\"");
    StripQuotesFixesQuoteFree("hello");
    assert "\"hello\"" == "\"" + ("hello" + "\"");
  }
}
