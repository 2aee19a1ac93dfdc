/**
 * smon.py: the `/` endpoint that runs every `check_*` method of the monitor
 * and folds their results into one HTTP response.  The monitor's attribute
 * listing (`dir(monitor)`) is a parameter: each attribute's name with the
 * result its method would return when called.
 */
module Smon {
  import opened Checks

  const NoRaid: string := "no raid configured?"
  const CheckPrefix: string := "check_"

  /** `Monitor.check_mdraid`: the mdadm command's result, with an empty output replaced. */
  function CheckMdraid(cmdResult: CheckResult): (r: CheckResult)
    ensures r.ok == cmdResult.ok
    ensures r.output != ""
    ensures cmdResult.output != "" ==> r.output == cmdResult.output
    ensures cmdResult.output == "" ==> r.output == NoRaid
  {
    WithDefaultOutput(cmdResult, NoRaid)
  }

  /** One attribute of the monitor as `dir` lists it, with what calling it returns. */
  datatype Attr = Attr(name: string, result: CheckResult)

  datatype Response = Response(body: string, code: int)

  predicate IsCheckName(name: string) {
    CheckPrefix <= name
  }

  /** Every attribute `all` calls returned OK. */
  predicate AllPass(attrs: seq<Attr>) {
    forall k :: 0 <= k < |attrs| && IsCheckName(attrs[k].name) ==> attrs[k].result.ok
  }

  /** The attributes `all` calls, in enumeration order. */
  function Selected(attrs: seq<Attr>): (sel: seq<Attr>)
    ensures |sel| <= |attrs|
  {
    if attrs == [] then []
    else
      var last := attrs[|attrs| - 1];
      Selected(attrs[..|attrs| - 1]) + (if IsCheckName(last.name) then [last] else [])
  }

  /** The outputs of the given attributes, one line per attribute, in order. */
  function Outputs(sel: seq<Attr>): (lines: seq<string>)
    ensures |lines| == |sel|
    ensures forall k :: 0 <= k < |sel| ==> lines[k] == sel[k].result.output
  {
    if sel == [] then [] else Outputs(sel[..|sel| - 1]) + [sel[|sel| - 1].result.output]
  }

  /** `"\n".join(lines)`. */
  function Join(lines: seq<string>): string {
    if lines == [] then ""
    else if |lines| == 1 then lines[0]
    else lines[0] + "\n" + Join(lines[1..])
  }

  /** `s.split("\n")`: the inverse of `Join`. */
  function Split(s: string): (parts: seq<string>)
    ensures |parts| >= 1
  {
    if s == [] then [""]
    else if s[0] == '\n' then [""] + Split(s[1..])
    else
      var rest := Split(s[1..]);
      [[s[0]] + rest[0]] + rest[1..]
  }

  /** Looking at one more attribute adds its output exactly when it is a check. */
  lemma OutputsNext(attrs: seq<Attr>, i: nat)
    requires i < |attrs|
    ensures Outputs(Selected(attrs[..i + 1])) ==
            Outputs(Selected(attrs[..i])) + (if IsCheckName(attrs[i].name) then [attrs[i].result.output] else [])
  {
    assert attrs[..i + 1][..i] == attrs[..i];
    var sel := Selected(attrs[..i]);
    if IsCheckName(attrs[i].name) {
      assert Selected(attrs[..i + 1]) == sel + [attrs[i]];
      assert (sel + [attrs[i]])[..|sel|] == sel;
    } else {
      assert Selected(attrs[..i + 1]) == sel;
    }
  }

  lemma AllPassNext(attrs: seq<Attr>, i: nat)
    requires i < |attrs|
    ensures AllPass(attrs[..i + 1]) <==> AllPass(attrs[..i]) && (IsCheckName(attrs[i].name) ==> attrs[i].result.ok)
  {
    assert forall k :: 0 <= k < i ==> attrs[..i + 1][k] == attrs[..i][k];
  }

  /** `all()`: run every `check_*` attribute, join the outputs, 200 if all were OK and 504 otherwise. */
  method All(attrs: seq<Attr>) returns (resp: Response)
    ensures resp.body == Join(Outputs(Selected(attrs)))
    ensures resp.code == 200 || resp.code == 504
    ensures resp.code == 200 <==> AllPass(attrs)
  {
    var output: seq<string> := [];
    var status := OK;
    var i := 0;
    while i < |attrs|
      invariant 0 <= i <= |attrs|
      invariant output == Outputs(Selected(attrs[..i]))
      invariant status == OK <==> AllPass(attrs[..i])
    {
      var attr := attrs[i];
      OutputsNext(attrs, i);
      AllPassNext(attrs, i);
      if IsCheckName(attr.name) {
        var st, out := attr.result.ok, attr.result.output;
        if st != OK {
          status := ERR;
        }
        output := output + [out];
      }
      i := i + 1;
    }
    assert attrs[..i] == attrs;
    resp := Response(Join(output), if status == OK then 200 else 504);
  }

  /** An attribute is called exactly when its name starts with `check_`. */
  lemma {:induction false} SelectedExactly(attrs: seq<Attr>)
    ensures forall a :: a in Selected(attrs) <==> a in attrs && IsCheckName(a.name)
  {
    if attrs != [] {
      var init := attrs[..|attrs| - 1];
      SelectedExactly(init);
      assert attrs == init + [attrs[|attrs| - 1]];
    }
  }

  lemma {:induction false} SplitSingleLine(a: string)
    requires '\n' !in a
    ensures Split(a) == [a]
  {
    if a != [] {
      SplitSingleLine(a[1..]);
      assert [a[0]] + a[1..] == a;
    }
  }

  lemma {:induction false} SplitAfterLine(a: string, rest: string)
    requires '\n' !in a
    ensures Split(a + "\n" + rest) == [a] + Split(rest)
  {
    if a == [] {
      assert a + "\n" + rest == "\n" + rest;
    } else {
      SplitAfterLine(a[1..], rest);
      var s := a + "\n" + rest;
      assert s[0] == a[0] && s[0] != '\n';
      assert s[1..] == a[1..] + "\n" + rest;
      assert [a[0]] + a[1..] == a;
    }
  }

  /**
   * When no output contains a newline, splitting the response body on
   * newlines gives back each check's output, in order.
   */
  lemma {:induction false} SplitJoin(lines: seq<string>)
    requires lines != []
    requires forall k :: 0 <= k < |lines| ==> '\n' !in lines[k]
    ensures Split(Join(lines)) == lines
  {
    if |lines| == 1 {
      SplitSingleLine(lines[0]);
    } else {
      SplitAfterLine(lines[0], Join(lines[1..]));
      SplitJoin(lines[1..]);
    }
  }

  /** Joining the pieces of any body gives the body back. */
  lemma {:induction false} JoinSplit(s: string)
    ensures Join(Split(s)) == s
  {
    if s != [] {
      JoinSplit(s[1..]);
      var rest := Split(s[1..]);
      if s[0] == '\n' {
        assert s == "\n" + s[1..];
      } else {
        assert s == [s[0]] + s[1..];
        if |rest| > 1 {
          assert rest == [rest[0]] + rest[1..];
        }
      }
    }
  }
}
