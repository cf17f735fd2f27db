/** The statistic names `Tsung` knows: the fixed groups, the groups filled
    by `add_name_by_category`, the transactions left out of the report, and
    the order in which `process` walks them. */
module TsungNames {
  import opened Strings
  import opened Wrappers
  import opened TsungLog

  const MainNames: seq<string> := ["connect", "page", "request"]
  const NetworkNames: seq<string> := ["size_sent", "size_rcv"]
  const UsersNames: seq<string> := ["connected", "finish_users_count", "users", "users_count"]
  const ServerNames: seq<string> := ["load", "cpu", "freemem"]

  /** Transactions of the test scenario's own plumbing, absent from the
      report. */
  const IgnoreTransactions: set<string> := {"tr_rand_name", "tr_set_var", "tr_readfile", "tr_get_host_name"}

  /** The groups whose members are discovered in the log. */
  datatype Category = Transaction | Http | Error | Match

  /** The group `add_name_by_category` puts a name in, if any. */
  function CategoryOf(name: string): (c: Option<Category>)
    ensures c == Some(Transaction) <==> name != "timestamp" && StartsWith(name, PrefixTransaction)
    ensures c == Some(Http) <==> !StartsWith(name, PrefixTransaction) && IsDigits(name)
    ensures c == Some(Error) <==> !StartsWith(name, PrefixTransaction) && !IsDigits(name) && StartsWith(name, PrefixError)
    ensures c == Some(Match) <==>
      name != "timestamp" && !StartsWith(name, PrefixTransaction) && !IsDigits(name) && !StartsWith(name, PrefixError) && Contains(name, "match")
  {
    if name == "timestamp" then None
    else if StartsWith(name, PrefixTransaction) then Some(Transaction)
    else if IsDigits(name) then Some(Http)
    else if StartsWith(name, PrefixError) then Some(Error)
    else if Contains(name, "match") then Some(Match)
    else None
  }

  /** The four discovered groups of `self.names`. */
  datatype Groups = Groups(transaction: set<string>, http: set<string>, error: set<string>, matches: set<string>)

  const NoGroups := Groups({}, {}, {}, {})

  /** Every member of a group belongs there by CategoryOf. */
  predicate Classified(g: Groups)
  {
    (forall n :: n in g.transaction ==> CategoryOf(n) == Some(Transaction))
    && (forall n :: n in g.http ==> CategoryOf(n) == Some(Http))
    && (forall n :: n in g.error ==> CategoryOf(n) == Some(Error))
    && (forall n :: n in g.matches ==> CategoryOf(n) == Some(Match))
  }

  /** Classified groups share no name. */
  lemma ClassifiedDisjoint(g: Groups)
    requires Classified(g)
    ensures g.transaction !! g.http && g.transaction !! g.error && g.transaction !! g.matches
    ensures g.http !! g.error && g.http !! g.matches && g.error !! g.matches
  {
  }

  /** One call of `add_name_by_category`. */
  function AddName(g: Groups, name: string): Groups
  {
    match CategoryOf(name)
    case None => g
    case Some(Transaction) => g.(transaction := g.transaction + {name})
    case Some(Http) => g.(http := g.http + {name})
    case Some(Error) => g.(error := g.error + {name})
    case Some(Match) => g.(matches := g.matches + {name})
  }

  /** `add_name_by_category` puts a name only where it belongs. */
  lemma AddNameClassified(g: Groups, name: string)
    requires Classified(g)
    ensures Classified(AddName(g, name))
  {
  }

  /** The names of the statistics in a block ('timestamp' included when the
      block has one, as the keys of the source's dict). */
  function KeysOf(b: Block): set<string>
  {
    b.samples.Keys + (if b.timestamp.Some? then {"timestamp"} else {})
  }

  /** The names of `ks` that belong to group `c`. */
  function InCategory(ks: set<string>, c: Category): set<string>
  {
    set n | n in ks && CategoryOf(n) == Some(c)
  }

  /** `g` with the names `ks` added, in any order. */
  function Added(g: Groups, ks: set<string>): Groups
  {
    Groups(g.transaction + InCategory(ks, Transaction), g.http + InCategory(ks, Http),
           g.error + InCategory(ks, Error), g.matches + InCategory(ks, Match))
  }

  /** Adding one more name is one call of `add_name_by_category`. */
  lemma AddedOneMore(g: Groups, ks: set<string>, n: string)
    ensures Added(g, ks + {n}) == AddName(Added(g, ks), n)
  {
    InCategoryOneMore(ks, n, Transaction);
    InCategoryOneMore(ks, n, Http);
    InCategoryOneMore(ks, n, Error);
    InCategoryOneMore(ks, n, Match);
  }

  lemma InCategoryOneMore(ks: set<string>, n: string, c: Category)
    ensures InCategory(ks + {n}, c) == InCategory(ks, c) + (if CategoryOf(n) == Some(c) then {n} else {})
  {
  }

  /** The groups after the names of every block have been added. */
  function GroupsOf(g: Groups, blocks: seq<Block>): Groups
    decreases |blocks|
  {
    if blocks == [] then g
    else Added(GroupsOf(g, blocks[..|blocks| - 1]), KeysOf(blocks[|blocks| - 1]))
  }

  /** A name ends up in a group exactly when it was there before or it
      names a statistic of some block and belongs to that group. */
  lemma {:induction false} GroupsOfMembers(g: Groups, blocks: seq<Block>, n: string)
    ensures var r := GroupsOf(g, blocks);
      var seen := exists i :: 0 <= i < |blocks| && n in KeysOf(blocks[i]);
      (n in r.transaction <==> n in g.transaction || (seen && CategoryOf(n) == Some(Transaction)))
      && (n in r.http <==> n in g.http || (seen && CategoryOf(n) == Some(Http)))
      && (n in r.error <==> n in g.error || (seen && CategoryOf(n) == Some(Error)))
      && (n in r.matches <==> n in g.matches || (seen && CategoryOf(n) == Some(Match)))
    decreases |blocks|
  {
    if blocks != [] {
      var init := blocks[..|blocks| - 1];
      GroupsOfMembers(g, init, n);
      if exists i :: 0 <= i < |blocks| && n in KeysOf(blocks[i]) {
        var i :| 0 <= i < |blocks| && n in KeysOf(blocks[i]);
        if i < |init| { assert n in KeysOf(init[i]); }
      }
      if exists i :: 0 <= i < |init| && n in KeysOf(init[i]) {
        var i :| 0 <= i < |init| && n in KeysOf(init[i]);
        assert n in KeysOf(blocks[i]);
      }
    }
  }

  /** Every group built from classified groups is classified. */
  lemma GroupsOfClassified(g: Groups, blocks: seq<Block>)
    requires Classified(g)
    ensures Classified(GroupsOf(g, blocks))
  {
    var r := GroupsOf(g, blocks);
    forall n | n in r.transaction || n in r.http || n in r.error || n in r.matches
      ensures (n in r.transaction ==> CategoryOf(n) == Some(Transaction))
        && (n in r.http ==> CategoryOf(n) == Some(Http))
        && (n in r.error ==> CategoryOf(n) == Some(Error))
        && (n in r.matches ==> CategoryOf(n) == Some(Match))
    {
      GroupsOfMembers(g, blocks, n);
    }
  }

  /** The groups with the ignored transactions removed, as `process` leaves
      them. */
  function WithoutIgnored(g: Groups): (r: Groups)
    ensures r.transaction !! IgnoreTransactions
  {
    g.(transaction := g.transaction - IgnoreTransactions)
  }

  /** One name per `process` pass: the groups in the order of `self.names`,
      the sets walked in sorted order. */
  function AllNames(g: Groups): seq<string>
  {
    MainNames + SortedNames(g.transaction) + NetworkNames + UsersNames
    + SortedNames(g.matches) + SortedNames(g.http) + SortedNames(g.error) + ServerNames
  }

  predicate Distinct(s: seq<string>)
  {
    forall i, j :: 0 <= i < j < |s| ==> s[i] != s[j]
  }

  /** A name whose first letter starts none of the prefixes and that lacks
      a letter of "match" belongs to no group. */
  lemma Ungrouped(n: string)
    requires |n| > 0 && n[0] != 't' && n[0] != 'e' && !IsDigit(n[0])
    requires 'm' !in n || 'a' !in n
    ensures CategoryOf(n).None?
  {
    if Contains(n, "match") {
      ContainsChar(n, "match", 0);
      ContainsChar(n, "match", 1);
    }
  }

  /** The fixed names belong to no discovered group. */
  lemma FixedNamesUngrouped(n: string)
    requires n in MainNames + NetworkNames + UsersNames + ServerNames
    ensures CategoryOf(n).None?
  {
    Ungrouped(n);
  }

  /** A sorted group holds each name once. */
  lemma SortedNamesDistinct(names: set<string>)
    ensures Distinct(SortedNames(names))
  {
    var r := SortedNames(names);
    SortedNamesSorted(names);
    forall i, j | 0 <= i < j < |r| ensures r[i] != r[j] {
      SortedDistinct(r, i, j);
    }
  }

  /** The position in the walk order of the group a name belongs to. */
  function Rank(x: string): nat
  {
    if x in MainNames then 0
    else if x in NetworkNames then 2
    else if x in UsersNames then 3
    else if x in ServerNames then 7
    else match CategoryOf(x)
      case Some(Transaction) => 1
      case Some(Match) => 4
      case Some(Http) => 5
      case Some(Error) => 6
      case None => 7
  }

  predicate Ranked(s: seq<string>, k: nat)
  {
    forall x :: x in s ==> Rank(x) == k
  }

  /** Appending a part of a higher rank to a walk without repeats keeps it
      without repeats. */
  lemma {:induction false} DistinctConcat(a: seq<string>, b: seq<string>, k: nat)
    requires Distinct(a) && Distinct(b) && Ranked(b, k)
    requires forall x :: x in a ==> Rank(x) < k
    ensures Distinct(a + b)
    ensures forall x :: x in a + b ==> Rank(x) <= k
  {
    var s := a + b;
    forall i, j | 0 <= i < j < |s| ensures s[i] != s[j] {
      if j >= |a| && i < |a| {
        assert s[j] == b[j - |a|] && s[j] in b;
        assert s[i] in a;
      } else if i >= |a| {
        assert s[i] == b[i - |a|] && s[j] == b[j - |a|];
      }
    }
  }

  lemma GroupRanked(names: set<string>, c: Category, k: nat)
    requires forall x :: x in names ==> CategoryOf(x) == Some(c)
    requires k == match c case Transaction => 1 case Match => 4 case Http => 5 case Error => 6
    ensures Ranked(SortedNames(names), k) && Distinct(SortedNames(names))
  {
    var r := SortedNames(names);
    forall x | x in r ensures Rank(x) == k {
      if x in MainNames + NetworkNames + UsersNames + ServerNames {
        FixedNamesUngrouped(x);
      }
    }
    SortedNamesDistinct(names);
  }

  lemma MainRanked()
    ensures Ranked(MainNames, 0) && Distinct(MainNames)
  {
  }

  lemma NetworkRanked()
    ensures Ranked(NetworkNames, 2) && Distinct(NetworkNames)
  {
  }

  lemma UsersRanked()
    ensures Ranked(UsersNames, 3) && Distinct(UsersNames)
  {
  }

  lemma ServerRanked()
    ensures Ranked(ServerNames, 7) && Distinct(ServerNames)
  {
  }

  /** `process` visits every name at most once: the walk order of
      `self.names` repeats no name. */
  lemma AllNamesDistinct(g: Groups)
    requires Classified(g)
    ensures Distinct(AllNames(g))
  {
    MainRanked();
    NetworkRanked();
    UsersRanked();
    ServerRanked();
    var t, m, h, e := SortedNames(g.transaction), SortedNames(g.matches), SortedNames(g.http), SortedNames(g.error);
    GroupRanked(g.transaction, Transaction, 1);
    GroupRanked(g.matches, Match, 4);
    GroupRanked(g.http, Http, 5);
    GroupRanked(g.error, Error, 6);
    DistinctConcat(MainNames, t, 1);
    DistinctConcat(MainNames + t, NetworkNames, 2);
    DistinctConcat(MainNames + t + NetworkNames, UsersNames, 3);
    DistinctConcat(MainNames + t + NetworkNames + UsersNames, m, 4);
    DistinctConcat(MainNames + t + NetworkNames + UsersNames + m, h, 5);
    DistinctConcat(MainNames + t + NetworkNames + UsersNames + m + h, e, 6);
    DistinctConcat(MainNames + t + NetworkNames + UsersNames + m + h + e, ServerNames, 7);
  }

  /** The ignored transactions all belong to the transaction group. */
  lemma IgnoredAreTransactions(n: string)
    requires n in IgnoreTransactions
    ensures CategoryOf(n) == Some(Transaction)
  {
  }

  /** A name is visited by `process` exactly when it is a fixed name or a
      member of one of the groups. */
  lemma AllNamesMembers(g: Groups, n: string)
    ensures n in AllNames(g) <==>
      (n in MainNames + NetworkNames + UsersNames + ServerNames
       || n in g.transaction || n in g.matches || n in g.http || n in g.error)
  {
  }

  /** No ignored transaction is visited once `process` has removed them. */
  lemma IgnoredNotWalked(g: Groups, n: string)
    requires Classified(g) && n in IgnoreTransactions
    ensures n !in AllNames(WithoutIgnored(g))
  {
    IgnoredAreTransactions(n);
    AllNamesMembers(WithoutIgnored(g), n);
    if n in MainNames + NetworkNames + UsersNames + ServerNames {
      FixedNamesUngrouped(n);
    }
  }
}
