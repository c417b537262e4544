/**
 * The task data both front ends edit: two ordered groups of tasks, and the
 * sequence operations their handlers are built from (remove at an index,
 * insert at an index, move one task), with the facts the handlers rely on.
 */
module Tasks {
  import opened Common

  /** A task carries a title, a description and, in one front end, an optional id. */
  datatype Task = Task(title: string, description: string, id: Option<string>)

  datatype Group = UserStories | EngineeringTasks

  function Other(g: Group): (h: Group)
    ensures h != g
  {
    match g
    case UserStories => EngineeringTasks
    case EngineeringTasks => UserStories
  }

  /** The `{ userStories, engineeringTasks }` object. */
  datatype TaskSet = TaskSet(userStories: seq<Task>, engineeringTasks: seq<Task>) {

    function Get(g: Group): seq<Task>
    {
      match g
      case UserStories => userStories
      case EngineeringTasks => engineeringTasks
    }

    /** `{ ...this, [g]: s }`: replaces one group and keeps the other. */
    function With(g: Group, s: seq<Task>): (r: TaskSet)
      ensures r.Get(g) == s && r.Get(Other(g)) == Get(Other(g))
    {
      match g
      case UserStories => TaskSet(s, engineeringTasks)
      case EngineeringTasks => TaskSet(userStories, s)
    }
  }

  /**
   * `s` without its element at `i`; an index past the end removes nothing.
   * The elements before `i` stay where they were and those after it move
   * down by one.
   */
  function Without<T>(s: seq<T>, i: nat): (r: seq<T>)
    ensures i < |s| ==> |r| == |s| - 1
    ensures i < |s| ==> forall k :: 0 <= k < i ==> r[k] == s[k]
    ensures i < |s| ==> forall k :: i <= k < |r| ==> r[k] == s[k + 1]
    ensures i >= |s| ==> r == s
  {
    if i < |s| then s[..i] + s[i + 1..] else s
  }

  /** `s` with `x` inserted before position `i`, or appended when `i` is past the end. */
  function InsertAt<T>(s: seq<T>, i: nat, x: T): (r: seq<T>)
    ensures |r| == |s| + 1
    ensures r[Min(i, |s|)] == x
    ensures forall k :: 0 <= k < Min(i, |s|) ==> r[k] == s[k]
    ensures forall k :: Min(i, |s|) < k < |r| ==> r[k] == s[k - 1]
  {
    var j := Min(i, |s|);
    s[..j] + [x] + s[j..]
  }

  /**
   * The task at `from` taken out and put back in at `to` (the end when
   * `to` is past it): what a drag from `from` onto `to` does.
   */
  function Moved<T>(s: seq<T>, from: nat, to: nat): seq<T>
    requires from < |s|
  {
    InsertAt(Without(s, from), to, s[from])
  }

  /** Removing what was inserted gives back the sequence inserted into. */
  lemma WithoutInsertAt<T>(s: seq<T>, i: nat, x: T)
    ensures Without(InsertAt(s, i, x), Min(i, |s|)) == s
  {
    var r := Without(InsertAt(s, i, x), Min(i, |s|));
    assert |r| == |s|;
    forall k | 0 <= k < |s| ensures r[k] == s[k] { }
  }

  /** A move is a permutation: same length, same multiset of tasks. */
  lemma MovedIsPermutation<T>(s: seq<T>, from: nat, to: nat)
    requires from < |s|
    ensures |Moved(s, from, to)| == |s|
    ensures multiset(Moved(s, from, to)) == multiset(s)
  {
    var w := Without(s, from);
    var j := Min(to, |w|);
    assert s == s[..from] + [s[from]] + s[from + 1..];
    assert w == s[..from] + s[from + 1..];
    assert Moved(s, from, to) == w[..j] + [s[from]] + w[j..];
    assert w == w[..j] + w[j..];
    calc {
      multiset(Moved(s, from, to));
      multiset(w[..j]) + multiset([s[from]]) + multiset(w[j..]);
      multiset(w) + multiset([s[from]]);
      multiset(s[..from]) + multiset(s[from + 1..]) + multiset([s[from]]);
      multiset(s);
    }
  }

  /**
   * The moved task lands at `to` (or last, when `to` is past the end), and
   * the other tasks keep their relative order.
   */
  lemma MovedPlacesTask<T>(s: seq<T>, from: nat, to: nat)
    requires from < |s|
    ensures Moved(s, from, to)[Min(to, |s| - 1)] == s[from]
    ensures Without(Moved(s, from, to), Min(to, |s| - 1)) == Without(s, from)
  {
    WithoutInsertAt(Without(s, from), to, s[from]);
  }

  /** Dropping a task back onto its own position changes nothing. */
  lemma MovedToItselfIsIdentity<T>(s: seq<T>, i: nat)
    requires i < |s|
    ensures Moved(s, i, i) == s
  {
    var m := Moved(s, i, i);
    assert |m| == |s|;
    forall k | 0 <= k < |s| ensures m[k] == s[k] { }
  }

  /** `set.has(x) ? set.delete(x) : set.add(x)` on a copy of the set. */
  function Toggled(s: set<Group>, x: Group): (r: set<Group>)
    ensures x in r <==> x !in s
    ensures forall y :: y != x ==> (y in r <==> y in s)
  {
    if x in s then s - {x} else s + {x}
  }

  /** Toggling the same section twice restores the original set. */
  lemma ToggledTwice(s: set<Group>, x: Group)
    ensures Toggled(Toggled(s, x), x) == s
  {
  }
}
