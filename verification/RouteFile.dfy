/** The route file: which lines are kept, and the loop that drops repeated neighbours. */
module RouteFile {
  import opened PlannerSpec
  import opened Planner
  import opened LoadPlan

  datatype RouteError =
    | ROUTE_DUPLICATE_CONSECUTIVE_PORT
    | ROUTE_ILLEGAL_PORT_SYMBOL
    | ROUTE_READ_FAIL_OR_FILE_EMPTY
    | ROUTE_ONLY_ONE_VALID_PORT

  predicate ValidLine(fields: seq<string>) {
    |fields| == 1 && SeaportCode(fields[0])
  }

  /** The codes of the valid lines. */
  function Codes(dataList: seq<seq<string>>): (codes: seq<string>)
    ensures |codes| <= |dataList|
    ensures |codes| == |dataList| <==> forall fields :: fields in dataList ==> ValidLine(fields)
    ensures forall code :: code in codes ==> SeaportCode(code)
  {
    if dataList == [] then []
    else
      var front := Codes(dataList[..|dataList| - 1]);
      var line := dataList[|dataList| - 1];
      assert dataList == dataList[..|dataList| - 1] + [line];
      if ValidLine(line) then front + [line[0]] else front
  }

  /** The codes come from these rows of the file, in their order. */
  ghost predicate FromRows(codes: seq<string>, rows: seq<nat>, dataList: seq<seq<string>>) {
    && |rows| == |codes|
    && (forall n :: 0 <= n < |rows| ==> rows[n] < |dataList| && dataList[rows[n]] == [codes[n]])
    && (forall n :: 0 <= n < |rows| ==> FiveLetters(codes[n]))
    && forall m, n :: 0 <= m < n < |rows| ==> rows[m] < rows[n]
  }

  ghost predicate AllRows(rows: seq<nat>, dataList: seq<seq<string>>) {
    forall k: nat :: k < |dataList| && |dataList[k]| == 1 && FiveLetters(dataList[k][0]) ==> k in rows
  }

  lemma ValidExactly(fields: seq<string>)
    ensures ValidLine(fields) <==> |fields| == 1 && FiveLetters(fields[0])
  {
    if |fields| == 1 {
      SeaportCodeExactly(fields[0]);
    }
  }

  /** The codes are those of all lines of one field that is five letters, in the order of the lines. */
  lemma {:induction false} CodesExactly(dataList: seq<seq<string>>) returns (rows: seq<nat>)
    ensures FromRows(Codes(dataList), rows, dataList) && AllRows(rows, dataList)
    decreases |dataList|
  {
    if dataList == [] {
      rows := [];
    } else {
      var front, line := dataList[..|dataList| - 1], dataList[|dataList| - 1];
      assert dataList == front + [line];
      rows := CodesExactly(front);
      ValidExactly(line);
      AllRowsMore(rows, front, line);
      if ValidLine(line) {
        assert line == [line[0]];
        rows := rows + [|front|];
      }
    }
  }

  lemma AllRowsMore(rows: seq<nat>, front: seq<seq<string>>, line: seq<string>)
    requires AllRows(rows, front)
    ensures AllRows(rows + [|front|], front + [line])
    ensures !(|line| == 1 && FiveLetters(line[0])) ==> AllRows(rows, front + [line])
  {
    var lines := front + [line];
    forall k: nat | k < |lines| && |lines[k]| == 1 && FiveLetters(lines[k][0])
      ensures k in rows + [|front|]
      ensures k < |front| ==> k in rows
    {
      if k < |front| {
        assert lines[k] == front[k];
      }
    }
  }

  /** One entry for each run of equal neighbours. */
  function Compress(s: seq<string>): (c: seq<string>)
    ensures |c| <= |s| && (s != [] ==> c != [])
  {
    if |s| <= 1 then s
    else if s[|s| - 1] == s[|s| - 2] then Compress(s[..|s| - 1])
    else Compress(s[..|s| - 1]) + [s[|s| - 1]]
  }

  ghost predicate NoEqualNeighbours(s: seq<string>) {
    forall k :: 0 <= k < |s| - 1 ==> s[k] != s[k + 1]
  }

  /** Each entry repeated as often as its count says. */
  function Expand(c: seq<string>, counts: seq<nat>): seq<string>
    requires |c| == |counts|
  {
    if c == [] then []
    else Expand(c[..|c| - 1], counts[..|c| - 1]) + seq(counts[|c| - 1], k => c[|c| - 1])
  }

  lemma ExpandPush(c: seq<string>, counts: seq<nat>, x: string, n: nat)
    requires |c| == |counts|
    ensures Expand(c + [x], counts + [n]) == Expand(c, counts) + seq(n, k => x)
  {
    assert (c + [x])[..|c|] == c && (counts + [n])[..|c|] == counts;
  }

  lemma NeighboursPush(s: seq<string>, x: string)
    ensures NoEqualNeighbours(s + [x]) <==> NoEqualNeighbours(s) && (s != [] ==> s[|s| - 1] != x)
  {
    var t := s + [x];
    assert forall k :: 0 <= k < |s| ==> t[k] == s[k];
    if NoEqualNeighbours(t) {
      forall k | 0 <= k < |s| - 1
        ensures s[k] != s[k + 1]
      {
        assert t[k] != t[k + 1];
      }
      assert s != [] ==> t[|s| - 1] != t[|s| - 1 + 1];
    }
  }

  /** No two neighbours of the result are equal, and it keeps the last entry. */
  lemma {:induction false} CompressIsClean(s: seq<string>)
    ensures NoEqualNeighbours(Compress(s))
    ensures forall x :: x in Compress(s) ==> x in s
    ensures s != [] ==> Compress(s)[|Compress(s)| - 1] == s[|s| - 1]
    decreases |s|
  {
    if |s| > 1 {
      var front := s[..|s| - 1];
      assert s == front + [s[|s| - 1]];
      CompressIsClean(front);
      NeighboursPush(Compress(front), s[|s| - 1]);
    }
  }

  /** What compression means: the input is the result with its entries repeated. */
  lemma {:induction false} CompressIsRuns(s: seq<string>) returns (counts: seq<nat>)
    ensures |counts| == |Compress(s)| && (forall k :: 0 <= k < |counts| ==> counts[k] >= 1)
    ensures Expand(Compress(s), counts) == s
    decreases |s|
  {
    if s == [] {
      counts := [];
    } else if |s| == 1 {
      counts := [1];
      ExpandPush([], [], s[0], 1);
      assert [] + s == s && s == [s[0]] && [] + [1] == [1];
    } else {
      var front := s[..|s| - 1];
      counts := CompressIsRuns(front);
      counts := RunsStep(s, front, s[|s| - 1], counts);
    }
  }

  lemma CompressNext(front: seq<string>, x: string)
    requires front != []
    ensures Compress(front + [x]) == if x == front[|front| - 1] then Compress(front) else Compress(front) + [x]
  {
    assert (front + [x])[..|front|] == front;
  }

  lemma RunsGrow(front: seq<string>, x: string, counts: seq<nat>) returns (more: seq<nat>)
    requires |counts| == |Compress(front)| && Expand(Compress(front), counts) == front
    requires forall k :: 0 <= k < |counts| ==> counts[k] >= 1
    ensures |more| == |Compress(front)| + 1 && (forall k :: 0 <= k < |more| ==> more[k] >= 1)
    ensures Expand(Compress(front) + [x], more) == front + [x]
  {
    ExpandPush(Compress(front), counts, x, 1);
    assert [x] == seq(1, k => x);
    more := counts + [1];
  }

  lemma RunsStep(s: seq<string>, front: seq<string>, x: string, counts: seq<nat>) returns (more: seq<nat>)
    requires front != [] && s == front + [x]
    requires |counts| == |Compress(front)| && Expand(Compress(front), counts) == front
    requires forall k :: 0 <= k < |counts| ==> counts[k] >= 1
    ensures |more| == |Compress(s)| && (forall k :: 0 <= k < |more| ==> more[k] >= 1)
    ensures Expand(Compress(s), more) == s
  {
    if x == front[|front| - 1] {
      CompressNext(front, x);
      CompressIsClean(front);
      more := OneMore(Compress(front), counts, front);
    } else {
      CompressNext(front, x);
      more := RunsGrow(front, x, counts);
    }
  }

  lemma OneMore(c: seq<string>, counts: seq<nat>, s: seq<string>) returns (more: seq<nat>)
    requires |c| == |counts| > 0 && Expand(c, counts) == s
    requires forall k :: 0 <= k < |counts| ==> counts[k] >= 1
    ensures |more| == |c| && (forall k :: 0 <= k < |more| ==> more[k] >= 1)
    ensures Expand(c, more) == s + [c[|c| - 1]]
  {
    var n, x := |c| - 1, c[|c| - 1];
    more := counts[..n] + [counts[n] + 1];
    assert c == c[..n] + [x] && counts == counts[..n] + [counts[n]];
    ExpandPush(c[..n], counts[..n], x, counts[n]);
    ExpandPush(c[..n], counts[..n], x, counts[n] + 1);
    assert seq(counts[n] + 1, k => x) == seq(counts[n], k => x) + [x];
  }

  /** There is only one way to write a list as runs, so compression undoes repetition. */
  lemma {:induction false} CompressUndoesExpand(c: seq<string>, counts: seq<nat>)
    requires |c| == |counts| && NoEqualNeighbours(c)
    requires forall k :: 0 <= k < |counts| ==> counts[k] >= 1
    ensures Compress(Expand(c, counts)) == c
    decreases |Expand(c, counts)|
  {
    if c != [] {
      var n, x := |c| - 1, c[|c| - 1];
      var s := Expand(c[..n], counts[..n]);
      assert c == c[..n] + [x];
      CompressUndoesExpand(c[..n], counts[..n]);
      LastOfExpand(c[..n], counts[..n]);
      assert n > 0 ==> c[n - 1] != c[n];
      CompressRun(s, c[..n], x, counts[n]);
    }
  }

  lemma LastOfExpand(c: seq<string>, counts: seq<nat>)
    requires |c| == |counts| && forall k :: 0 <= k < |counts| ==> counts[k] >= 1
    ensures (Expand(c, counts) == []) == (c == [])
    ensures c != [] ==> Expand(c, counts)[|Expand(c, counts)| - 1] == c[|c| - 1]
  {
  }

  lemma {:induction false} CompressRun(s: seq<string>, c: seq<string>, x: string, n: nat)
    requires n >= 1 && Compress(s) == c && (s != [] ==> s[|s| - 1] != x)
    ensures Compress(s + seq(n, k => x)) == c + [x]
    decreases n
  {
    var front := s + seq(n - 1, k => x);
    assert s + seq(n, k => x) == front + [x];
    if n > 1 {
      CompressRun(s, c, x, n - 1);
      CompressNext(front, x);
    } else {
      assert front == s;
      if s != [] {
        CompressNext(s, x);
      } else {
        assert front + [x] == [x] && c + [x] == [x];
      }
    }
  }

  /** Nothing is dropped exactly when there was nothing to drop. */
  lemma {:induction false} CompressKeepsAll(s: seq<string>)
    ensures |Compress(s)| == |s| <==> NoEqualNeighbours(s)
    decreases |s|
  {
    if |s| > 1 {
      var front := s[..|s| - 1];
      CompressKeepsAll(front);
      assert s == front + [s[|s| - 1]];
      NeighboursPush(front, s[|s| - 1]);
    }
  }

  /** The first loop: valid lines are kept, any other is an error. */
  method KeepValidLines(dataList: seq<seq<string>>) returns (temp: seq<string>, illegal: bool)
    ensures temp == Codes(dataList)
    ensures illegal <==> exists fields :: fields in dataList && !ValidLine(fields)
  {
    temp, illegal := [], false;
    for i := 0 to |dataList|
      invariant temp == Codes(dataList[..i])
      invariant illegal <==> exists fields :: fields in dataList[..i] && !ValidLine(fields)
    {
      assert dataList[..i + 1] == dataList[..i] + [dataList[i]];
      assert dataList[..i + 1][..i] == dataList[..i];
      if |dataList[i]| != 1 {
        illegal := true;
      } else {
        var good := VerifySeaportCode(dataList[i][0]);
        if !good {
          illegal := true;
        } else {
          temp := temp + [dataList[i][0]];
        }
      }
    }
    assert dataList[..|dataList|] == dataList;
  }

  /** The second loop, driven by a counter of equal neighbours. */
  method DropRepeats(temp: seq<string>) returns (cleansed: seq<string>, dropped: bool)
    ensures cleansed == Compress(temp)
    ensures dropped <==> !NoEqualNeighbours(temp)
  {
    cleansed, dropped := [], false;
    var sequentialCount := 0;
    for j := 0 to |temp|
      invariant sequentialCount >= 0 && cleansed == Compress(temp[..j])
      invariant j < |temp| ==> (sequentialCount > 0 <==> 0 < j && temp[j - 1] == temp[j])
      invariant dropped <==> exists k :: 0 <= k < j && k + 1 < |temp| && temp[k] == temp[k + 1]
    {
      assert temp[..j + 1][..j] == temp[..j];
      if j < |temp| - 1 {
        if temp[j] == temp[j + 1] {
          dropped := true;
          if sequentialCount == 0 {
            cleansed := cleansed + [temp[j]];
          }
          sequentialCount := sequentialCount + 1;
        } else {
          if sequentialCount > 0 {
            sequentialCount := 0;
          } else {
            cleansed := cleansed + [temp[j]];
          }
        }
      } else {
        if sequentialCount == 0 {
          cleansed := cleansed + [temp[j]];
        }
      }
    }
    assert temp[..|temp|] == temp;
  }

  /** Both loops, with the errors about single lines. */
  method CleanRoute(dataList: seq<seq<string>>) returns (route: seq<string>, errors: set<RouteError>)
    ensures route == Compress(Codes(dataList))
    ensures errors <= {ROUTE_ILLEGAL_PORT_SYMBOL, ROUTE_DUPLICATE_CONSECUTIVE_PORT}
    ensures ROUTE_ILLEGAL_PORT_SYMBOL in errors <==> exists fields :: fields in dataList && !ValidLine(fields)
    ensures ROUTE_DUPLICATE_CONSECUTIVE_PORT in errors <==> !NoEqualNeighbours(Codes(dataList))
  {
    var temp, illegal := KeepValidLines(dataList);
    var dropped;
    route, dropped := DropRepeats(temp);
    errors := {};
    if illegal {
      errors := errors + {ROUTE_ILLEGAL_PORT_SYMBOL};
    }
    if dropped {
      errors := errors + {ROUTE_DUPLICATE_CONSECUTIVE_PORT};
    }
  }

  /** The whole route: it is usable exactly when two entries or more are left. */
  method InputFileRoutesValidation(dataList: seq<seq<string>>)
      returns (route: seq<string>, errors: set<RouteError>, ok: bool)
    ensures route == Compress(Codes(dataList))
    ensures ok <==> |route| >= 2
    ensures ROUTE_ILLEGAL_PORT_SYMBOL in errors <==> exists fields :: fields in dataList && !ValidLine(fields)
    ensures ROUTE_DUPLICATE_CONSECUTIVE_PORT in errors <==> !NoEqualNeighbours(Codes(dataList))
    ensures ROUTE_ONLY_ONE_VALID_PORT in errors <==> |route| == 1
    ensures ROUTE_READ_FAIL_OR_FILE_EMPTY in errors <==> route == []
  {
    route, errors := CleanRoute(dataList);
    if |route| == 1 {
      return route, errors + {ROUTE_ONLY_ONE_VALID_PORT}, false;
    }
    if route == [] {
      return route, errors + {ROUTE_READ_FAIL_OR_FILE_EMPTY}, false;
    }
    ok := true;
  }

  /** A route that was read holds seaport codes, no two equal ones side by side, and repeats
      were dropped exactly when it is shorter than the list of valid lines. */
  lemma RouteIsClean(dataList: seq<seq<string>>)
    ensures var route := Compress(Codes(dataList));
            && NoEqualNeighbours(route)
            && (forall code :: code in route ==> SeaportCode(code))
            && (!NoEqualNeighbours(Codes(dataList)) <==> |route| < |Codes(dataList)|)
  {
    CompressIsClean(Codes(dataList));
    CompressKeepsAll(Codes(dataList));
  }
}
