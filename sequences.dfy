/** Lists of ids kept in insertion order, as the players' iteration order is. */
module Sequences {

  /** `s` lists no id twice. */
  predicate NoDuplicates(s: seq<string>) {
    forall i, j :: 0 <= i < j < |s| ==> s[i] != s[j]
  }

  /** `s` without `id`, in order: what deleting a key does to a map's iteration
      order. */
  function Without(s: seq<string>, id: string): (r: seq<string>)
    ensures forall k :: k in r <==> k in s && k != id
    ensures NoDuplicates(s) ==> NoDuplicates(r)
  {
    if s == [] then []
    else if s[0] == id then Without(s[1..], id)
    else
      var rest := Without(s[1..], id);
      NoDuplicatesSplit(s);
      NoDuplicatesCons(s[0], rest);
      [s[0]] + rest
  }

  /** A list without duplicates: its head does not recur in its tail. */
  lemma NoDuplicatesSplit(s: seq<string>)
    requires |s| > 0
    ensures NoDuplicates(s) ==> NoDuplicates(s[1..]) && s[0] !in s[1..]
  {
    if NoDuplicates(s) {
      forall j | 0 <= j < |s[1..]| ensures s[1..][j] != s[0] {
        assert s[1..][j] == s[j + 1];
      }
    }
  }

  /** Putting an id that is not yet listed in front keeps the list duplicate-free. */
  lemma NoDuplicatesCons(x: string, s: seq<string>)
    ensures NoDuplicates(s) && x !in s ==> NoDuplicates([x] + s)
  {
    if NoDuplicates(s) && x !in s {
      var t := [x] + s;
      forall i, j | 0 <= i < j < |t| ensures t[i] != t[j] {
        assert t[j] == s[j - 1];
        if i > 0 {
          assert t[i] == s[i - 1];
        }
      }
    }
  }
}
