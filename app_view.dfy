/** The root view (src/App.js): the in-memory robot list, the search text that
    filters it, and the append used when a robot has been created. */
module AppView {
  import opened TextUtil
  import opened Api

  /** The filter's test: the lower-cased name contains the lower-cased search.
      An empty search matches every robot; a search longer than the name
      matches none. */
  predicate Matches(r: Robot, searched: string): (b: bool)
    ensures searched == "" ==> b
    ensures b ==> |searched| <= |r.name|
  {
    Contains(ToLower(r.name), ToLower(searched))
  }

  /** `robot.filter(...)`: the robots that match, in list order. It is never
      longer than the list and holds only robots that match. */
  function Filter(robots: seq<Robot>, searched: string): (r: seq<Robot>)
    ensures |r| <= |robots|
    ensures forall i :: 0 <= i < |r| ==> Matches(r[i], searched)
  {
    if robots == [] then []
    else (if Matches(robots[0], searched) then [robots[0]] else [])
         + Filter(robots[1..], searched)
  }

  /** `a` is obtained from `b` by deleting elements, keeping the order of the rest. */
  predicate IsSubsequence(a: seq<Robot>, b: seq<Robot>)
    decreases |b|
  {
    if a == [] then true
    else if b == [] then false
    else (a[0] == b[0] && IsSubsequence(a[1..], b[1..])) || IsSubsequence(a, b[1..])
  }

  /** A robot is shown exactly when it is in the list and its name matches. */
  lemma {:induction false} FilterMembership(robots: seq<Robot>, searched: string, x: Robot)
    ensures x in Filter(robots, searched) <==> x in robots && Matches(x, searched)
  {
    if robots != [] {
      FilterMembership(robots[1..], searched, x);
      assert robots == [robots[0]] + robots[1..];
    }
  }

  /** Matching spelled out: the lower-cased search text occurs at some position
      of the lower-cased name. */
  lemma MatchesIff(r: Robot, searched: string)
    ensures Matches(r, searched) <==>
            exists i :: OccursAt(ToLower(r.name), ToLower(searched), i)
  {
    assert Matches(r, searched) == Contains(ToLower(r.name), ToLower(searched));
    ContainsIff(ToLower(r.name), ToLower(searched));
  }

  /** The filtered list keeps the original order. */
  lemma {:induction false} FilterIsSubsequence(robots: seq<Robot>, searched: string)
    ensures IsSubsequence(Filter(robots, searched), robots)
  {
    if robots != [] {
      FilterIsSubsequence(robots[1..], searched);
      var rest := Filter(robots[1..], searched);
      if Matches(robots[0], searched) {
        assert Filter(robots, searched) == [robots[0]] + rest;
      } else {
        assert Filter(robots, searched) == rest;
        SubsequenceOfTail(rest, robots);
      }
    }
  }

  lemma {:induction false} SubsequenceOfTail(a: seq<Robot>, b: seq<Robot>)
    requires b != [] && IsSubsequence(a, b[1..])
    ensures IsSubsequence(a, b)
  {
  }

  /** An empty search shows the whole list. */
  lemma {:induction false} FilterEmptySearch(robots: seq<Robot>)
    ensures Filter(robots, "") == robots
  {
    if robots != [] {
      FilterEmptySearch(robots[1..]);
      assert robots == [robots[0]] + robots[1..];
    }
  }

  /** Two search texts that lower-case alike filter alike. */
  lemma {:induction false} FilterIgnoresSearchCase(robots: seq<Robot>, a: string, b: string)
    requires ToLower(a) == ToLower(b)
    ensures Filter(robots, a) == Filter(robots, b)
  {
    if robots != [] {
      FilterIgnoresSearchCase(robots[1..], a, b);
    }
  }

  /** Searching for the lower-cased text is the same as searching for the text. */
  lemma FilterLoweredSearch(robots: seq<Robot>, searched: string)
    ensures Filter(robots, ToLower(searched)) == Filter(robots, searched)
  {
    ToLowerIdempotent(searched);
    FilterIgnoresSearchCase(robots, ToLower(searched), searched);
  }

  /** "ALI" and "ali" show the same robots. */
  lemma FilterAliExample(robots: seq<Robot>)
    ensures Filter(robots, "ALI") == Filter(robots, "ali")
  {
    assert ToLower("ALI") == "ali";
    assert ToLower("ali") == "ali";
    FilterIgnoresSearchCase(robots, "ALI", "ali");
  }

  /** Filtering the filtered list again with the same text changes nothing. */
  lemma {:induction false} FilterIdempotent(robots: seq<Robot>, searched: string)
    ensures Filter(Filter(robots, searched), searched) == Filter(robots, searched)
  {
    if robots != [] {
      FilterIdempotent(robots[1..], searched);
      var rest := Filter(robots[1..], searched);
      if Matches(robots[0], searched) {
        var f := [robots[0]] + rest;
        assert Filter(robots, searched) == f;
        assert f[0] == robots[0] && f[1..] == rest;
      } else {
        assert Filter(robots, searched) == rest;
      }
    }
  }

  /** Appending a robot adds it at the end of the filtered list when it matches,
      and leaves the filtered list alone otherwise. */
  lemma {:induction false} FilterAppend(robots: seq<Robot>, x: Robot, searched: string)
    ensures Filter(robots + [x], searched)
            == Filter(robots, searched) + (if Matches(x, searched) then [x] else [])
  {
    if robots == [] {
      assert [x][1..] == [];
    } else {
      var head := if Matches(robots[0], searched) then [robots[0]] else [];
      var extra := if Matches(x, searched) then [x] else [];
      assert (robots + [x])[0] == robots[0];
      assert (robots + [x])[1..] == robots[1..] + [x];
      FilterAppend(robots[1..], x, searched);
      calc {
        Filter(robots + [x], searched);
        head + Filter(robots[1..] + [x], searched);
        head + (Filter(robots[1..], searched) + extra);
        (head + Filter(robots[1..], searched)) + extra;
        Filter(robots, searched) + extra;
      }
    }
  }

  /** Records named "Alice", "Bob" and "alicia" searched with "ali" leave
      "Alice" and "alicia". */
  lemma FilterExample(a: Robot, b: Robot, c: Robot)
    requires a.name == "Alice" && b.name == "Bob" && c.name == "alicia"
    ensures Filter([a, b, c], "ali") == [a, c]
  {
    assert ToLower("ali") == "ali";
    assert Matches(a, "ali") by {
      var lowered := ToLower(a.name);
      assert lowered[..3] == "ali";
      assert IsPrefix("ali", lowered);
    }
    assert Matches(c, "ali") by {
      var lowered := ToLower(c.name);
      assert lowered[..3] == "ali";
      assert IsPrefix("ali", lowered);
    }
    assert !Matches(b, "ali") by {
      var lowered := ToLower(b.name);
      assert |lowered| == 3 && lowered[0] == 'b';
      assert !IsPrefix("ali", lowered);
      assert !Contains(lowered[1..], "ali");
    }
    assert [a, b, c][1..] == [b, c];
    assert [b, c][1..] == [c];
    assert Filter([c], "ali") == [c] by { assert [c][1..] == []; }
  }

  /** The component's state: `robot`, `searched` and `showModal`. */
  class App {
    var robot: seq<Robot>
    var searched: string
    var showModal: bool

    constructor ()
      ensures robot == [] && searched == "" && !showModal
    {
      robot := [];
      searched := "";
      showModal := false;
    }

    /** What the grid shows: `filteredRobots`, recomputed from the state. Only
        matching robots are shown, and an empty search shows the whole list. */
    function FilteredRobots(): (r: seq<Robot>)
      reads this
      ensures forall i :: 0 <= i < |r| ==> Matches(r[i], searched)
      ensures searched == "" ==> r == robot
    {
      FilterEmptySearch(robot);
      Filter(robot, searched)
    }

    /** `handleChange`: the search box's new text. */
    method HandleChange(value: string)
      modifies this`searched
      ensures searched == value && robot == old(robot)
      ensures FilteredRobots() == Filter(robot, value)
    {
      searched := value;
    }

    /** `handleAddRobot`: the new robot goes at the end; nothing before it moves. */
    method HandleAddRobot(newRobot: Robot)
      modifies this`robot
      ensures robot == old(robot) + [newRobot]
      ensures |robot| == |old(robot)| + 1 && robot[|robot| - 1] == newRobot
      ensures robot[..|old(robot)|] == old(robot)
      ensures FilteredRobots() == old(FilteredRobots())
              + (if Matches(newRobot, searched) then [newRobot] else [])
    {
      FilterAppend(robot, newRobot, searched);
      robot := robot + [newRobot];
    }

    /** `setShowModal`, called by the "Add New User" button (true) and by the
        form (false). */
    method SetShowModal(visible: bool)
      modifies this`showModal
      ensures showModal == visible
    {
      showModal := visible;
    }
  }
}
