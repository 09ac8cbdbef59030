/** Editing the list of subscribed subreddits: the name field and the removable chips. */
module Subscriptions {
  import opened Text

  /** One chip: a subreddit name and whether its about page answered with a success status. */
  datatype Subscription = Subscription(name: string, valid: bool)

  /** The name field and the chips, as the setup screen holds them. */
  datatype Editor = Editor(subs: seq<Subscription>, input: string)

  /** The name an input produces: trimmed first, then every comma removed. */
  function Normalize(input: string): (name: string)
    ensures ',' !in name
  {
    RemoveCommas(Trim(input))
  }

  predicate SameIgnoringCase(a: string, b: string) {
    ToLower(a) == ToLower(b)
  }

  /** The duplicate test: some entry has this name up to case. */
  predicate Listed(subs: seq<Subscription>, name: string) {
    exists i :: 0 <= i < |subs| && SameIgnoringCase(subs[i].name, name)
  }

  /** No two entries have the same name up to case. */
  predicate CaseUnique(subs: seq<Subscription>) {
    forall i, j :: 0 <= i < j < |subs| ==> !SameIgnoringCase(subs[i].name, subs[j].name)
  }

  /** The add handler as it runs across its await: the empty and duplicate tests read `seen`, the
      list rendered when the key was pressed, and the append extends `current`, the list as it is
      when the about-page request returns with `isValid`. */
  function AddSubscriptionAsync(seen: seq<Subscription>, current: seq<Subscription>, input: string, isValid: bool)
    : (r: seq<Subscription>)
    ensures |current| <= |r| <= |current| + 1 && r[..|current|] == current
    ensures |r| == |current| + 1 <==> Normalize(input) != "" && !Listed(seen, Normalize(input))
    ensures |r| == |current| + 1 ==> r[|current|] == Subscription(Normalize(input), isValid)
  {
    var name := Normalize(input);
    if name == "" || Listed(seen, name) then current else current + [Subscription(name, isValid)]
  }

  /** The add handler when nothing else changes the list while validation is pending. */
  function AddSubscription(subs: seq<Subscription>, input: string, isValid: bool): (r: seq<Subscription>)
    ensures CaseUnique(subs) ==> CaseUnique(r)
  {
    AddSubscriptionAsync(subs, subs, input, isValid)
  }

  /** A key press in the name field: only Enter and comma submit; an accepted name clears the field,
      a rejected one leaves the field and the list as they were. */
  function HandleSubredditInput(e: Editor, key: string, isValid: bool): (r: Editor)
    ensures key != "Enter" && key != "," ==> r == e
    ensures (key == "Enter" || key == ",") ==> r.subs == AddSubscription(e.subs, e.input, isValid)
    ensures r.subs == e.subs ==> r == e
    ensures r.subs != e.subs ==> r.input == ""
  {
    if key == "Enter" || key == "," then
      var subs := AddSubscription(e.subs, e.input, isValid);
      if subs == e.subs then e else Editor(subs, "")
    else e
  }

  /** The chip's remove button: drop every entry whose name is exactly `name`. */
  function RemoveSub(subs: seq<Subscription>, name: string): (r: seq<Subscription>)
    ensures forall s :: s in r <==> s in subs && s.name != name
  {
    if subs == [] then []
    else
      assert subs == [subs[0]] + subs[1..];
      (if subs[0].name == name then [] else [subs[0]]) + RemoveSub(subs[1..], name)
  }

  /** Removing filters piecewise, so the kept entries stay in their order. */
  lemma {:induction false} RemoveSubAppend(a: seq<Subscription>, b: seq<Subscription>, name: string)
    ensures RemoveSub(a + b, name) == RemoveSub(a, name) + RemoveSub(b, name)
  {
    if a == [] {
      assert a + b == b;
    } else {
      var ab := a + b;
      assert ab[0] == a[0] && ab[1..] == a[1..] + b;
      var head := if a[0].name == name then [] else [a[0]];
      var left := RemoveSub(a[1..], name);
      var right := RemoveSub(b, name);
      calc {
        RemoveSub(ab, name);
        head + RemoveSub(a[1..] + b, name);
        { RemoveSubAppend(a[1..], b, name); }
        head + (left + right);
        (head + left) + right;
      }
    }
  }

  lemma {:induction false} RemoveSubAbsent(subs: seq<Subscription>, name: string)
    requires forall i :: 0 <= i < |subs| ==> subs[i].name != name
    ensures RemoveSub(subs, name) == subs
  {
    if subs != [] {
      RemoveSubAbsent(subs[1..], name);
    }
  }

  /** In a list without case-insensitive duplicates, the head's name differs from every later one. */
  lemma HeadUnlisted(subs: seq<Subscription>)
    requires subs != [] && CaseUnique(subs)
    ensures forall t :: t in subs[1..] ==> !SameIgnoringCase(subs[0].name, t.name)
  {
    forall t | t in subs[1..] ensures !SameIgnoringCase(subs[0].name, t.name) {
      var k :| 0 <= k < |subs[1..]| && subs[1..][k] == t;
      assert subs[k + 1] == t;
    }
  }

  /** Removing entries cannot create a case-insensitive duplicate. */
  lemma {:induction false} RemoveKeepsUnique(subs: seq<Subscription>, name: string)
    requires CaseUnique(subs)
    ensures CaseUnique(RemoveSub(subs, name))
  {
    if subs != [] {
      var rest := RemoveSub(subs[1..], name);
      RemoveKeepsUnique(subs[1..], name);
      if subs[0].name != name {
        HeadUnlisted(subs);
        var r := [subs[0]] + rest;
        forall i, j | 0 <= i < j < |r| ensures !SameIgnoringCase(r[i].name, r[j].name) {
          if i == 0 {
            assert r[j] == rest[j - 1];
            assert r[j] in subs[1..];
          } else {
            assert r[i] == rest[i - 1] && r[j] == rest[j - 1];
          }
        }
      }
    }
  }

  /** Adding a new name and then removing it gives back the list from before. */
  lemma AddThenRemove(subs: seq<Subscription>, input: string, isValid: bool)
    requires Normalize(input) != "" && !Listed(subs, Normalize(input))
    ensures RemoveSub(AddSubscription(subs, input, isValid), Normalize(input)) == subs
  {
    var name := Normalize(input);
    forall i | 0 <= i < |subs| ensures subs[i].name != name {
      assert !SameIgnoringCase(subs[i].name, name);
    }
    RemoveSubAppend(subs, [Subscription(name, isValid)], name);
    RemoveSubAbsent(subs, name);
  }

  /** Two submissions of one name whose validations are both pending: each duplicate test reads the
      list from before either append, so both appends happen and the list holds the name twice. */
  lemma PendingAddsDuplicate(subs: seq<Subscription>, input: string, v1: bool, v2: bool)
    requires Normalize(input) != "" && !Listed(subs, Normalize(input))
    ensures !CaseUnique(AddSubscriptionAsync(subs, AddSubscriptionAsync(subs, subs, input, v1), input, v2))
  {
    var r := AddSubscriptionAsync(subs, AddSubscriptionAsync(subs, subs, input, v1), input, v2);
    assert r[|subs|].name == r[|subs| + 1].name;
  }

  /** An input padded with white space gives the bare name. */
  lemma NormalizeStripsPadding(front: string, name: string, back: string)
    requires AllSpace(front) && AllSpace(back) && ',' !in name
    requires name == [] || (!IsSpace(name[0]) && !IsSpace(name[|name| - 1]))
    ensures Normalize(front + name + back) == name
  {
    TrimStripsPadding(front, name, back);
  }

  /** Trimming happens before the commas go, so the space behind a leading comma survives. */
  lemma NormalizeKeepsSpaceAfterComma(t: string)
    requires t != [] && ',' !in t && !IsSpace(t[0]) && !IsSpace(t[|t| - 1])
    ensures Normalize(", " + t) == " " + t
  {
    TrimKeepsCommaSpace(t);
    RemoveCommasOfCommaSpace(t);
  }

  lemma TrimKeepsCommaSpace(t: string)
    requires t != [] && !IsSpace(t[|t| - 1])
    ensures Trim(", " + t) == ", " + t
  {
    var s := ", " + t;
    assert [] + s + [] == s;
    assert s[|s| - 1] == t[|t| - 1];
    TrimStripsPadding([], s, []);
  }

  lemma RemoveCommasOfCommaSpace(t: string)
    requires ',' !in t
    ensures RemoveCommas(", " + t) == " " + t
  {
    assert ", " + t == "," + (" " + t);
    RemoveCommasAppend(",", " " + t);
    RemoveCommasAppend(" ", t);
    assert RemoveCommas(",") == [] by {
      assert ","[1..] == [];
    }
    assert RemoveCommas(" ") == " " by {
      assert " "[1..] == [];
    }
  }
}
