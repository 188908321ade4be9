/**
 * The multi-select chip list (components/ui/chip-select.tsx): tapping a
 * chip toggles its option in the selected list, and a chip is drawn as
 * selected when its option is in that list.
 */
module ChipSelect {

  /** `r` is `s` with some elements left out and the rest in their original order. */
  predicate IsSubsequence(r: seq<string>, s: seq<string>)
    decreases |s|
  {
    if r == [] then true
    else if s == [] then false
    else if r[0] == s[0] then IsSubsequence(r[1..], s[1..])
    else IsSubsequence(r, s[1..])
  }

  /** No option is listed twice. */
  predicate NoDuplicates(s: seq<string>) {
    forall i, j :: 0 <= i < j < |s| ==> s[i] != s[j]
  }

  /** Every listed option is one of `options`. */
  predicate AllIn(s: seq<string>, options: seq<string>) {
    forall x :: x in s ==> x in options
  }

  /** `s.filter((item) => item !== x)`: every occurrence of `x` dropped, everything else kept in order. */
  function RemoveAll(s: seq<string>, x: string): (r: seq<string>)
    ensures multiset(r) == multiset(s)[x := 0]
    ensures x !in r
    ensures forall y :: y in r ==> y in s
    ensures IsSubsequence(r, s)
  {
    if s == [] then []
    else
      assert s == [s[0]] + s[1..];
      var rest := RemoveAll(s[1..], x);
      assert multiset(rest)[x] == 0;
      if s[0] == x then rest else [s[0]] + rest
  }

  /** `toggleOption`: an option already selected is removed, wherever and however often it occurs; any other is appended. */
  function ToggleOption(selected: seq<string>, option: string): (r: seq<string>)
    ensures option in r <==> option !in selected
    ensures forall y :: y != option ==> multiset(r)[y] == multiset(selected)[y]
    ensures forall y :: y in r ==> y in selected || y == option
    ensures IsSubsequence(r, selected) || r == selected + [option]
  {
    if option in selected then RemoveAll(selected, option) else selected + [option]
  }

  /** `isSelected` for each chip, in the order the options are drawn. */
  function ChipStates(options: seq<string>, selected: seq<string>): (r: seq<bool>)
    ensures |r| == |options|
    ensures forall i :: 0 <= i < |r| ==> (r[i] <==> options[i] in selected)
  {
    seq(|options|, i requires 0 <= i < |options| => options[i] in selected)
  }

  /** A list that already lacks `x` is its own filter. */
  lemma {:induction false} RemoveAllAbsent(s: seq<string>, x: string)
    requires x !in s
    ensures RemoveAll(s, x) == s
  {
    if s != [] {
      RemoveAllAbsent(s[1..], x);
    }
  }

  /** Filtering distributes over concatenation. */
  lemma {:induction false} RemoveAllAppend(s: seq<string>, t: seq<string>, x: string)
    ensures RemoveAll(s + t, x) == RemoveAll(s, x) + RemoveAll(t, x)
  {
    if s == [] {
      assert s + t == t;
    } else {
      assert (s + t)[1..] == s[1..] + t;
      RemoveAllAppend(s[1..], t, x);
    }
  }

  /** Filtering twice is filtering once. */
  lemma RemoveAllIdempotent(s: seq<string>, x: string)
    ensures RemoveAll(RemoveAll(s, x), x) == RemoveAll(s, x)
  {
  }

  /** The options other than the toggled one keep their order and multiplicity. */
  lemma ToggleKeepsOthers(selected: seq<string>, option: string)
    ensures RemoveAll(ToggleOption(selected, option), option) == RemoveAll(selected, option)
  {
    if option in selected {
      RemoveAllIdempotent(selected, option);
    } else {
      RemoveAllAppend(selected, [option], option);
      assert RemoveAll([option], option) == [];
    }
  }

  /** Tapping an unselected chip twice restores the selection. */
  lemma ToggleAbsentTwice(selected: seq<string>, option: string)
    requires option !in selected
    ensures ToggleOption(ToggleOption(selected, option), option) == selected
  {
    RemoveAllAppend(selected, [option], option);
    RemoveAllAbsent(selected, option);
    assert RemoveAll([option], option) == [];
  }

  /** Tapping a selected chip twice moves its option to the end. */
  lemma TogglePresentTwice(selected: seq<string>, option: string)
    requires option in selected
    ensures ToggleOption(ToggleOption(selected, option), option) == RemoveAll(selected, option) + [option]
  {
  }

  /** A subsequence of a list without duplicates has none. */
  lemma {:induction false} SubsequenceKeepsNoDuplicates(r: seq<string>, s: seq<string>)
    requires IsSubsequence(r, s) && NoDuplicates(s)
    ensures NoDuplicates(r)
    decreases |s|
  {
    if r != [] && s != [] {
      if r[0] == s[0] {
        SubsequenceKeepsNoDuplicates(r[1..], s[1..]);
        SubsequenceElements(r[1..], s[1..]);
        forall i, j | 0 <= i < j < |r| ensures r[i] != r[j] {
          if i == 0 {
            assert r[j] == r[1..][j - 1];
            assert r[j] in s[1..];
            var k :| 0 <= k < |s[1..]| && s[1..][k] == r[j];
            assert s[k + 1] == r[j];
          } else {
            assert r[i] == r[1..][i - 1] && r[j] == r[1..][j - 1];
          }
        }
      } else {
        SubsequenceKeepsNoDuplicates(r, s[1..]);
      }
    }
  }

  /** Every element of a subsequence occurs in the sequence. */
  lemma {:induction false} SubsequenceElements(r: seq<string>, s: seq<string>)
    requires IsSubsequence(r, s)
    ensures forall x :: x in r ==> x in s
    decreases |s|
  {
    if r != [] && s != [] {
      if r[0] == s[0] {
        SubsequenceElements(r[1..], s[1..]);
        assert r == [r[0]] + r[1..];
      } else {
        SubsequenceElements(r, s[1..]);
      }
    }
  }

  /**
   * A toggle through a chip of the list keeps the selection free of
   * duplicates and within the offered options.
   */
  lemma ToggleKeepsSelectionValid(options: seq<string>, selected: seq<string>, option: string)
    requires NoDuplicates(selected) && AllIn(selected, options) && option in options
    ensures NoDuplicates(ToggleOption(selected, option)) && AllIn(ToggleOption(selected, option), options)
  {
    var r := ToggleOption(selected, option);
    if option in selected {
      SubsequenceKeepsNoDuplicates(r, selected);
      SubsequenceElements(r, selected);
    }
  }
}
