/** The small list editors shared by the scenario form (tags), the character
    form (interests) and the search panel (selected tags): add one entry
    unless it is already present, remove every copy of one entry. */
module TagLists {
  import opened Text
  import opened Seqs

  predicate NoDuplicates(s: seq<string>) {
    forall i, j :: 0 <= i < j < |s| ==> s[i] != s[j]
  }

  /** `if (!tags.includes(t)) tags = [...tags, t]`: the list afterwards holds
      `t`, holds nothing new besides `t`, and is unchanged when `t` was
      already there. */
  function AddIfAbsent(tags: seq<string>, t: string): (r: seq<string>)
    ensures t in r
    ensures forall x :: x in r <==> x == t || x in tags
    ensures t in tags ==> r == tags
    ensures t !in tags ==> |r| == |tags| + 1 && r[..|tags|] == tags
    ensures NoDuplicates(tags) ==> NoDuplicates(r)
  {
    if t in tags then tags else tags + [t]
  }

  /** Adding the same entry twice is adding it once. */
  lemma AddIfAbsentIdempotent(tags: seq<string>, t: string)
    ensures AddIfAbsent(AddIfAbsent(tags, t), t) == AddIfAbsent(tags, t)
  {
  }

  /** A list editor's state: the entries and the text typed in the input. */
  datatype TagEdit = TagEdit(tags: seq<string>, input: string)

  /** `addTag` / `addInterest`: the trimmed input is appended when it is not
      blank and not already listed, and then the input is cleared; otherwise
      nothing changes, not even the input. */
  function AddTrimmed(e: TagEdit): (r: TagEdit)
    ensures IsBlank(e.input) ==> r == e
    ensures !IsBlank(e.input) && Trim(e.input) in e.tags ==> r == e
    ensures !IsBlank(e.input) && Trim(e.input) !in e.tags ==>
              r.input == "" && r.tags == e.tags + [Trim(e.input)]
    ensures forall x :: x in r.tags ==> x in e.tags || (x == Trim(e.input) && x != "")
    ensures NoDuplicates(e.tags) ==> NoDuplicates(r.tags)
  {
    var t := Trim(e.input);
    if t != "" && t !in e.tags then TagEdit(AddIfAbsent(e.tags, t), "") else e
  }

  /** An added entry never has white space at either end. */
  lemma AddedEntryIsTrimmed(e: TagEdit)
    requires |AddTrimmed(e).tags| > |e.tags|
    ensures var t := AddTrimmed(e).tags[|e.tags|];
            t != "" && Trim(t) == t
  {
    TrimIdempotent(e.input);
  }

  /** `tags.filter(x => x !== t)`: every copy of `t` goes, the rest keep
      their order. */
  function RemoveAll(tags: seq<string>, t: string): (r: seq<string>)
    ensures t !in r
    ensures IsSubsequence(r, tags)
    ensures forall x :: x != t ==> (x in r <==> x in tags)
  {
    Filter(tags, x => x != t)
  }

  /** Removing a tag drops exactly its copies: the list shrinks by the
      number of times the tag occurs. */
  lemma {:induction false} RemoveAllCount(tags: seq<string>, t: string)
    ensures |RemoveAll(tags, t)| + multiset(tags)[t] == |tags|
  {
    if |tags| > 0 {
      RemoveAllCount(tags[1..], t);
      assert tags == [tags[0]] + tags[1..];
      assert multiset(tags) == multiset([tags[0]]) + multiset(tags[1..]);
    }
  }

  /** Removing what was just added (when it was new) restores the list. */
  lemma {:induction false} RemoveUndoesAdd(tags: seq<string>, t: string)
    requires t !in tags
    ensures RemoveAll(AddIfAbsent(tags, t), t) == tags
  {
    FilterConcat(tags, [t], x => x != t);
    FilterKeepsAll(tags, x => x != t);
  }
}
