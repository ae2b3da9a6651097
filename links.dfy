/** The evidence-link lists: the near-miss and the general URL lists that the
    link panels (`LinkAttachmentSubFrame`) change in place. */
module Links {
  import opened Common

  /** What `add_link` does with the string the user typed. */
  datatype AddOutcome =
    | NoInput       // dialog cancelled or left empty: nothing happens
    | InvalidUrl    // "URL must start with http:// or https://"
    | DuplicateLink // "This link has already been added"
    | Added

  /** What `remove_selected_link` does with the selected URL. */
  datatype RemoveOutcome =
    | NoSelection   // "Please click on a link in the list to select it"
    | LinkNotFound  // "Selected link not found in the data list"
    | Removed

  /** The scheme test of `add_link`: `url.startswith(("http://", "https://"))`. */
  predicate IsWebUrl(url: string) {
    StartsWith(url, "http://") || StartsWith(url, "https://")
  }

  /** Python's `list.remove(x)`: drops the first occurrence of `x`. */
  function RemoveFirst<T(==)>(s: seq<T>, x: T): (r: seq<T>)
    ensures |r| == if x in s then |s| - 1 else |s|
  {
    if s == [] then []
    else if s[0] == x then s[1..]
    else [s[0]] + RemoveFirst(s[1..], x)
  }

  /** `RemoveFirst` cuts out exactly the first occurrence: everything before it
      and everything after it stay, in order. */
  lemma {:induction false} RemoveFirstAt<T>(s: seq<T>, x: T, i: nat)
    requires i < |s| && s[i] == x && x !in s[..i]
    ensures RemoveFirst(s, x) == s[..i] + s[i + 1..]
  {
    if i > 0 {
      assert s[0] != x by { assert s[0] == s[..i][0]; }
      assert s[1..][..i - 1] == s[..i][1..];
      RemoveFirstAt(s[1..], x, i - 1);
      assert s[..i] == [s[0]] + s[1..][..i - 1];
    }
  }

  /** A URL that is not in the list leaves it unchanged. */
  lemma {:induction false} RemoveAbsent<T>(s: seq<T>, x: T)
    requires x !in s
    ensures RemoveFirst(s, x) == s
  {
    if s != [] {
      assert x !in s[1..];
      RemoveAbsent(s[1..], x);
    }
  }

  /** Removing keeps the multiset of URLs minus one copy of `x`. */
  lemma {:induction false} RemoveFirstMultiset<T>(s: seq<T>, x: T)
    ensures multiset(RemoveFirst(s, x)) == multiset(s) - multiset{x}
  {
    if s != [] {
      assert s == [s[0]] + s[1..];
      if s[0] != x {
        RemoveFirstMultiset(s[1..], x);
      }
    }
  }

  /** In a list without duplicates, removing `x` removes every trace of it and
      leaves a list without duplicates. */
  lemma RemoveKeepsDistinct<T>(s: seq<T>, x: T)
    requires NoDuplicates(s)
    ensures NoDuplicates(RemoveFirst(s, x))
    ensures x !in RemoveFirst(s, x)
  {
    if x in s {
      var i :| 0 <= i < |s| && s[i] == x;
      assert x !in s[..i];
      RemoveFirstAt(s, x, i);
      var r := RemoveFirst(s, x);
      DropAt(s, i);
      forall a, b | 0 <= a < b < |r|
        ensures r[a] != r[b]
      {
        if b < i {
          assert r[a] == s[a] && r[b] == s[b];
        } else if a < i {
          assert r[a] == s[a] && r[b] == s[b + 1];
        } else {
          assert r[a] == s[a + 1] && r[b] == s[b + 1];
        }
      }
      forall k | 0 <= k < |r|
        ensures r[k] != x
      {
        if k < i {
          assert r[k] == s[k];
        } else {
          assert r[k] == s[k + 1];
        }
      }
    } else {
      RemoveAbsent(s, x);
    }
  }

  /** Cutting out position `i` shifts everything after it down by one. */
  lemma DropAt<T>(s: seq<T>, i: nat)
    requires i < |s|
    ensures |s[..i] + s[i + 1..]| == |s| - 1
    ensures forall k :: 0 <= k < i ==> (s[..i] + s[i + 1..])[k] == s[k]
    ensures forall k :: i < k < |s| ==> (s[..i] + s[i + 1..])[k - 1] == s[k]
  {
  }

  /** Adding a new URL and then removing it restores the list. */
  lemma AddThenRemove<T>(s: seq<T>, x: T)
    requires x !in s
    ensures RemoveFirst(s + [x], x) == s
  {
    assert (s + [x])[..|s|] == s;
    RemoveFirstAt(s + [x], x, |s|);
  }

  /** One URL list, shared by reference between the record and its panel. */
  class LinkList {
    var urls: seq<string>

    constructor ()
      ensures urls == []
    {
      urls := [];
    }

    /** `add_link`: empty input does nothing; a URL without an http:// or
        https:// prefix is refused; a URL already present is refused as a
        duplicate; any other URL is appended at the end. */
    method AddLink(entered: Option<string>) returns (r: AddOutcome)
      modifies this
      ensures entered == None || entered == Some("") ==> r == NoInput
      ensures entered.Some? && entered.value != "" ==>
        r == (if !IsWebUrl(entered.value) then InvalidUrl
              else if entered.value in old(urls) then DuplicateLink
              else Added)
      ensures urls == if r == Added then old(urls) + [entered.value] else old(urls)
      ensures NoDuplicates(old(urls)) ==> NoDuplicates(urls)
    {
      if entered == None || entered.value == "" {
        return NoInput;
      }
      var url := entered.value;
      if !IsWebUrl(url) {
        return InvalidUrl;
      }
      if url !in urls {
        urls := urls + [url];
        r := Added;
      } else {
        r := DuplicateLink;
      }
    }

    /** `remove_selected_link`: with no selection nothing happens; a selected
        URL that is in the list has its first occurrence removed; otherwise the
        list is unchanged and the mismatch is reported. */
    method RemoveSelected(selected: Option<string>) returns (r: RemoveOutcome)
      modifies this
      ensures selected == None ==> r == NoSelection
      ensures selected.Some? ==> r == (if selected.value in old(urls) then Removed else LinkNotFound)
      ensures urls == if r == Removed then RemoveFirst(old(urls), selected.value) else old(urls)
    {
      if selected == None {
        return NoSelection;
      }
      var url := selected.value;
      if url in urls {
        urls := RemoveFirst(urls, url);
        r := Removed;
      } else {
        r := LinkNotFound;
      }
    }

    /** `list.clear()` */
    method Clear()
      modifies this
      ensures urls == []
    {
      urls := [];
    }

    /** `list.extend(items)` */
    method Extend(items: seq<string>)
      modifies this
      ensures urls == old(urls) + items
    {
      urls := urls + items;
    }
  }
}
