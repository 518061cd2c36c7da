/**
 * The selection as MainActivity persists it: saveSelectedPackages writes the list
 * as a string set under "saved_packages", and loadSelectedPackages turns the set
 * back into a list in the set's own iteration order.
 */
module PackageStore {

  function Elements(pkgs: seq<string>): set<string>
  {
    set p | p in pkgs
  }

  predicate NoDuplicates(pkgs: seq<string>)
  {
    forall i, j :: 0 <= i < j < |pkgs| ==> pkgs[i] != pkgs[j]
  }

  /**
   * ArrayList(savedSet): every saved package exactly once, in an order the set
   * chooses (left open here).
   */
  method ListFromSet(saved: set<string>) returns (pkgs: seq<string>)
    ensures Elements(pkgs) == saved
    ensures NoDuplicates(pkgs)
    ensures |pkgs| == |saved|
  {
    pkgs := [];
    var rest := saved;
    while rest != {}
      invariant Elements(pkgs) + rest == saved
      invariant Elements(pkgs) !! rest
      invariant NoDuplicates(pkgs)
      invariant |pkgs| + |rest| == |saved|
      decreases |rest|
    {
      var p :| p in rest;
      pkgs := pkgs + [p];
      rest := rest - {p};
    }
  }

  /** In a list without duplicates, every element occurs exactly once. */
  lemma {:induction false} OccursOnce(pkgs: seq<string>, p: string)
    requires NoDuplicates(pkgs)
    ensures multiset(pkgs)[p] == if p in pkgs then 1 else 0
  {
    if pkgs != [] {
      assert pkgs == [pkgs[0]] + pkgs[1..];
      assert NoDuplicates(pkgs[1..]) by {
        forall i, j | 0 <= i < j < |pkgs[1..]| ensures pkgs[1..][i] != pkgs[1..][j] {
          assert pkgs[1..][i] == pkgs[i + 1] && pkgs[1..][j] == pkgs[j + 1];
        }
      }
      OccursOnce(pkgs[1..], p);
      if p == pkgs[0] {
        assert p !in pkgs[1..] by {
          forall j | 0 <= j < |pkgs[1..]| ensures pkgs[1..][j] != p {
            assert pkgs[1..][j] == pkgs[j + 1];
          }
        }
      }
    }
  }

  /**
   * Saving and loading again gives back the same packages, reordered, when the
   * selection had no duplicates: the reloaded list is a permutation of it.
   */
  lemma SaveLoadPermutation(selection: seq<string>, reloaded: seq<string>)
    requires NoDuplicates(selection)
    requires NoDuplicates(reloaded) && Elements(reloaded) == Elements(selection)
    ensures multiset(reloaded) == multiset(selection)
  {
    forall p ensures multiset(reloaded)[p] == multiset(selection)[p] {
      OccursOnce(reloaded, p);
      OccursOnce(selection, p);
      assert p in reloaded <==> p in Elements(reloaded);
      assert p in selection <==> p in Elements(selection);
    }
  }
}
