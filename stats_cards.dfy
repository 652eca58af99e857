/** The dashboard's per-category counters (`getPasswordCount`). */
module StatsCards {
  import opened VaultItem
  import Dashboard

  datatype Counts = Counts(total: nat, social: nat, work: nat, finance: nat, entertainment: nat, other: nat)

  /** `passwords.filter(p => p.category === category).length`. */
  function CountCategory(passwords: seq<Item>, category: string): (n: nat)
    ensures n <= |passwords|
  {
    if passwords == [] then 0
    else CountCategory(passwords[..|passwords| - 1], category)
         + (if passwords[|passwords| - 1].category == category then 1 else 0)
  }

  function GetPasswordCount(passwords: seq<Item>): (c: Counts)
    ensures c.total == |passwords|
    ensures c.social <= c.total && c.work <= c.total && c.finance <= c.total
    ensures c.entertainment <= c.total && c.other <= c.total
  {
    Counts(|passwords|,
           CountCategory(passwords, "social"),
           CountCategory(passwords, "work"),
           CountCategory(passwords, "finance"),
           CountCategory(passwords, "entertainment"),
           CountCategory(passwords, "other"))
  }

  function Sum(c: Counts): nat {
    c.social + c.work + c.finance + c.entertainment + c.other
  }

  /** Each item falls in at most one of the five counters, and in exactly one when its category is known. */
  lemma {:induction false} CategoriesPartition(passwords: seq<Item>)
    ensures Sum(GetPasswordCount(passwords)) <= |passwords|
    ensures (forall p | p in passwords :: p.category in CATEGORIES) ==>
      Sum(GetPasswordCount(passwords)) == |passwords|
  {
    if passwords != [] {
      var init := passwords[..|passwords| - 1];
      CategoriesPartition(init);
      assert forall p | p in init :: p in passwords;
    }
  }

  /** The count of a category equals the number of cards the dashboard shows for that category with no search. */
  lemma {:induction false} CountMatchesCategoryFilter(passwords: seq<Item>, category: string)
    requires category != "all"
    ensures CountCategory(passwords, category) == |Dashboard.FilterPasswords(passwords, "", category)|
  {
    CountIsFilterLength(passwords, category);
  }

  lemma {:induction false} CountIsFilterLength(passwords: seq<Item>, category: string)
    ensures CountCategory(passwords, category) == |Dashboard.FilterByCategory(passwords, category)|
    decreases |passwords|
  {
    if passwords != [] {
      var n := |passwords|;
      CountIsFilterLength(passwords[1..], category);
      CountIsFilterLength(passwords[..n - 1], category);
      if n > 1 {
        CountIsFilterLength(passwords[1..n - 1], category);
        assert passwords[1..][..n - 2] == passwords[1..n - 1];
        assert passwords[..n - 1][1..] == passwords[1..n - 1];
      }
      CountFront(passwords, category);
    }
  }

  /** CountCategory peels from the back; this peels from the front. */
  lemma {:induction false} CountFront(passwords: seq<Item>, category: string)
    requires passwords != []
    ensures CountCategory(passwords, category)
      == (if passwords[0].category == category then 1 else 0) + CountCategory(passwords[1..], category)
    decreases |passwords|
  {
    var n := |passwords|;
    if n > 1 {
      CountFront(passwords[..n - 1], category);
      assert passwords[..n - 1][1..] == passwords[1..][..n - 2];
    } else {
      assert passwords[1..] == [];
    }
  }
}
