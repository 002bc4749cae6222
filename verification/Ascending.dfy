/** The order in which std::map visits its keys. */
module Ascending {
  predicate IsMax(s: set<nat>, m: nat) {
    m in s && forall j :: j in s ==> j <= m
  }

  lemma {:induction false} MaxExists(s: set<nat>) returns (m: nat)
    requires s != {}
    ensures IsMax(s, m)
  {
    var a :| a in s;
    m := a;
    var rest := s - {a};
    if rest != {} {
      var n := MaxExists(rest);
      m := if a < n then n else a;
      forall j | j in s ensures j <= m { assert j == a || j in rest; }
    } else {
      forall j | j in s ensures j <= m { assert j == a || j in rest; }
    }
  }

  lemma MaxIsThere(s: set<nat>)
    requires s != {}
    ensures exists m: nat :: IsMax(s, m)
  {
    var m := MaxExists(s);
  }

  function Sorted(s: set<nat>): seq<nat>
    decreases |s|
  {
    if s == {} then [] else
    MaxIsThere(s);
    var m: nat :| m in s && IsMax(s, m);
    Sorted(s - {m}) + [m]
  }

  /** All keys, each once, the smaller ones first. */
  lemma {:induction false} SortedKeys(s: set<nat>)
    ensures forall i :: i in s <==> i in Sorted(s)
    ensures forall j, k :: 0 <= j < k < |Sorted(s)| ==> Sorted(s)[j] < Sorted(s)[k]
    decreases |s|
  {
    if s != {} {
      MaxIsThere(s);
      var m :| m in s && IsMax(s, m) && Sorted(s) == Sorted(s - {m}) + [m];
      SortedKeys(s - {m});
      var front := Sorted(s - {m});
      forall j | 0 <= j < |front| ensures front[j] < m { assert front[j] in front; }
    }
  }
}
