/**
 * A pygame sprite Group, as far as the game uses it: an insertion-ordered
 * sequence whose `update` calls each member's own update, which either keeps
 * the member (possibly changed) or kills it.
 */
module Groups {
  import opened Wrappers

  /** One `group.update()`: each member steps by `f`; `None` means it killed itself. */
  function UpdateAll<T>(s: seq<T>, f: T -> Option<T>): (r: seq<T>)
    ensures |r| <= |s|
  {
    if |s| == 0 then []
    else match f(s[0])
      case None => UpdateAll(s[1..], f)
      case Some(x) => [x] + UpdateAll(s[1..], f)
  }

  /** A member survives the update exactly when its own step keeps it. */
  lemma {:induction false} UpdateAllMembers<T>(s: seq<T>, f: T -> Option<T>, x: T)
    ensures x in UpdateAll(s, f) <==> exists i :: 0 <= i < |s| && f(s[i]) == Some(x)
  {
    if |s| > 0 {
      UpdateAllMembers(s[1..], f, x);
      if exists i :: 0 <= i < |s| && f(s[i]) == Some(x) {
        var i :| 0 <= i < |s| && f(s[i]) == Some(x);
        if i > 0 {
          assert f(s[1..][i - 1]) == Some(x);
        }
      }
      if exists i :: 0 <= i < |s[1..]| && f(s[1..][i]) == Some(x) {
        var i :| 0 <= i < |s[1..]| && f(s[1..][i]) == Some(x);
        assert f(s[i + 1]) == Some(x);
      }
    }
  }

  /** Updating keeps the group's order and length when nobody is killed. */
  lemma {:induction false} UpdateAllNoKill<T>(s: seq<T>, f: T -> Option<T>)
    requires forall i :: 0 <= i < |s| ==> f(s[i]).Some?
    ensures |UpdateAll(s, f)| == |s|
    ensures forall i :: 0 <= i < |s| ==> Some(UpdateAll(s, f)[i]) == f(s[i])
  {
    if |s| > 0 {
      UpdateAllNoKill(s[1..], f);
    }
  }
}
