/** The path helpers of the endpoint generator: a REST path such as
    /v2/smart_trades/{smart_trade_id}/trades/{id} is split on '/' into its
    API version, its major endpoint, the sub-path after them and at most two
    path variables (the segments written with braces). */
module SwaggerPaths {
  import opened Wrappers
  import opened Text

  /** A segment is a path variable when it contains an opening brace. */
  predicate IsVariableSegment(segment: string) {
    '{' in segment
  }

  /** The variable segments, in path order. */
  function VariableSegments(segments: seq<string>): (vs: seq<string>)
    ensures |vs| <= |segments|
    ensures forall i :: 0 <= i < |vs| ==> IsVariableSegment(vs[i])
    decreases |segments|
  {
    if |segments| == 0 then []
    else (if IsVariableSegment(segments[0]) then [segments[0]] else []) + VariableSegments(segments[1..])
  }

  /** A segment with every '{' and then every '}' removed. */
  function StripBraces(segment: string): (name: string)
    ensures '{' !in name && '}' !in name
  {
    RemoveChar(RemoveChar(segment, '{'), '}')
  }

  /** A "{name}" segment yields its name. */
  lemma StripBracesOfWrapped(name: string)
    requires '{' !in name && '}' !in name
    ensures StripBraces("{" + name + "}") == name
  {
    assert ("{" + name + "}")[1..] == name + "}";
    RemoveCharConcat(name, "}", '}');
  }

  /** The first and the second path variable, if the path has them. */
  function PathVariables(path: string): (Option<string>, Option<string>)
  {
    var vs := VariableSegments(Split(path, '/'));
    (if |vs| >= 1 then Some(StripBraces(vs[0])) else None,
     if |vs| >= 2 then Some(StripBraces(vs[1])) else None)
  }

  /** get_path_variables: pops the first two variable segments off the
      filtered list, one at a time. */
  method GetPathVariables(path: string) returns (first: Option<string>, second: Option<string>)
    ensures (first, second) == PathVariables(path)
  {
    var variables := VariableSegments(Split(path, '/'));
    first := None;
    if |variables| > 0 {
      first := Some(StripBraces(variables[0]));
      variables := variables[1..];
    }
    second := None;
    if |variables| > 0 {
      second := Some(StripBraces(variables[0]));
      variables := variables[1..];
    }
  }

  /** Index i holds the first variable segment. */
  predicate FirstVariableAt(segments: seq<string>, i: int) {
    && 0 <= i < |segments|
    && IsVariableSegment(segments[i])
    && (forall j :: 0 <= j < i ==> !IsVariableSegment(segments[j]))
  }

  /** Indices i < k hold the first and the second variable segment. */
  predicate SecondVariableAt(segments: seq<string>, i: int, k: int) {
    && 0 <= i < k < |segments|
    && IsVariableSegment(segments[i])
    && IsVariableSegment(segments[k])
    && (forall j :: 0 <= j < k && j != i ==> !IsVariableSegment(segments[j]))
  }

  lemma ShiftFirst(segments: seq<string>, i: int)
    requires |segments| > 0 && !IsVariableSegment(segments[0])
    requires FirstVariableAt(segments[1..], i)
    ensures FirstVariableAt(segments, i + 1)
  {
    forall j | 0 < j < i + 1 ensures !IsVariableSegment(segments[j]) {
      assert segments[j] == segments[1..][j - 1];
    }
  }

  lemma ShiftSecond(segments: seq<string>, i: int, k: int)
    requires |segments| > 0 && !IsVariableSegment(segments[0])
    requires SecondVariableAt(segments[1..], i, k)
    ensures SecondVariableAt(segments, i + 1, k + 1)
  {
    forall j | 0 < j < k + 1 && j != i + 1 ensures !IsVariableSegment(segments[j]) {
      assert segments[j] == segments[1..][j - 1];
    }
  }

  lemma {:induction false} FirstVariableSegment(segments: seq<string>)
    requires |VariableSegments(segments)| >= 1
    ensures exists i :: FirstVariableAt(segments, i) && VariableSegments(segments)[0] == segments[i]
    decreases |segments|
  {
    if IsVariableSegment(segments[0]) {
      assert FirstVariableAt(segments, 0);
    } else {
      var tail := segments[1..];
      assert VariableSegments(segments) == VariableSegments(tail);
      FirstVariableSegment(tail);
      var i :| FirstVariableAt(tail, i) && VariableSegments(tail)[0] == tail[i];
      ShiftFirst(segments, i);
    }
  }

  lemma {:induction false} SecondVariableSegment(segments: seq<string>)
    requires |VariableSegments(segments)| >= 2
    ensures exists i, k :: SecondVariableAt(segments, i, k) && VariableSegments(segments)[1] == segments[k]
    decreases |segments|
  {
    var tail := segments[1..];
    if IsVariableSegment(segments[0]) {
      assert VariableSegments(segments) == [segments[0]] + VariableSegments(tail);
      FirstVariableSegment(tail);
      var k :| FirstVariableAt(tail, k) && VariableSegments(tail)[0] == tail[k];
      forall j | 0 < j < k + 1 ensures !IsVariableSegment(segments[j]) {
        assert segments[j] == tail[j - 1];
      }
      assert SecondVariableAt(segments, 0, k + 1);
    } else {
      assert VariableSegments(segments) == VariableSegments(tail);
      SecondVariableSegment(tail);
      var i, k :| SecondVariableAt(tail, i, k) && VariableSegments(tail)[1] == tail[k];
      ShiftSecond(segments, i, k);
    }
  }

  lemma {:induction false} VariableSegmentsCount(segments: seq<string>, i: nat)
    requires i < |segments| && IsVariableSegment(segments[i])
    ensures |VariableSegments(segments)| >= 1
    ensures forall k :: i < k < |segments| && IsVariableSegment(segments[k]) ==> |VariableSegments(segments)| >= 2
    decreases |segments|
  {
    if i > 0 {
      VariableSegmentsCount(segments[1..], i - 1);
      assert forall k :: i < k < |segments| ==> segments[k] == segments[1..][k - 1];
    } else {
      forall k | i < k < |segments| && IsVariableSegment(segments[k])
        ensures |VariableSegments(segments)| >= 2
      {
        VariableSegmentsCount(segments[1..], k - 1);
        assert segments[1..][k - 1] == segments[k];
      }
    }
  }

  /** The path variables are the first and second brace-holding segments,
      in path order, with their braces removed; a missing one is None and a
      third one is ignored. */
  lemma PathVariablesInOrder(path: string)
    ensures var segments, vars := Split(path, '/'), PathVariables(path);
      && (vars.0.None? <==> forall i :: 0 <= i < |segments| ==> !IsVariableSegment(segments[i]))
      && (vars.0.Some? ==> (exists i :: FirstVariableAt(segments, i) && vars.0.value == StripBraces(segments[i])))
      && (vars.1.None? <==> forall i, k :: 0 <= i < k < |segments| && IsVariableSegment(segments[i]) ==> !IsVariableSegment(segments[k]))
      && (vars.1.Some? ==> vars.0.Some? && (exists i, k :: SecondVariableAt(segments, i, k) && vars.1.value == StripBraces(segments[k])))
  {
    var segments := Split(path, '/');
    var vs := VariableSegments(segments);
    if |vs| >= 1 { FirstVariableSegment(segments); }
    if |vs| >= 2 { SecondVariableSegment(segments); }
    forall i | 0 <= i < |segments| && IsVariableSegment(segments[i]) ensures |vs| >= 1 {
      VariableSegmentsCount(segments, i);
    }
    forall i, k | 0 <= i < k < |segments| && IsVariableSegment(segments[i]) && IsVariableSegment(segments[k])
      ensures |vs| >= 2
    {
      VariableSegmentsCount(segments, i);
    }
  }

  /** get_api_version_from_path: path.split('/')[1], an IndexError when the
      path has no '/'. */
  function ApiVersion(path: string): (r: Result<string>)
    ensures r.Ok? ==> '/' !in r.value
  {
    var segments := Split(path, '/');
    if |segments| > 1 then Ok(segments[1]) else Err(IndexError)
  }

  /** get_major_endpoint_from_path: path.split('/')[2]. */
  function MajorEndpoint(path: string): (r: Result<string>)
    ensures r.Ok? ==> '/' !in r.value
  {
    var segments := Split(path, '/');
    if |segments| > 2 then Ok(segments[2]) else Err(IndexError)
  }

  /** get_sub_path: the segments after index 3 joined by '/', empty when
      there are none. */
  function SubPath(path: string): string
  {
    var segments := Split(path, '/');
    Join(if |segments| > 3 then segments[3..] else [], "/")
  }

  /** The version lookup fails exactly when the path holds no '/'. */
  lemma ApiVersionDefined(path: string)
    ensures ApiVersion(path).Ok? <==> '/' in path
    ensures MajorEndpoint(path).Ok? ==> ApiVersion(path).Ok?
  {
    SplitSingle(path, '/');
  }

  /** Splitting the sub-path again gives back the segments after the endpoint. */
  lemma SubPathSegments(path: string)
    requires |Split(path, '/')| > 3
    ensures Split(SubPath(path), '/') == Split(path, '/')[3..]
  {
    SplitJoin(Split(path, '/')[3..], '/');
  }

  /** For an absolute path with at least version and endpoint, the three
      pieces put back together give the path. */
  lemma Reassemble(path: string)
    requires |path| > 0 && path[0] == '/'
    requires MajorEndpoint(path).Ok?
    ensures path == "/" + ApiVersion(path).value + "/" + MajorEndpoint(path).value +
      (if |Split(path, '/')| > 3 then "/" + SubPath(path) else "")
  {
    var segments := Split(path, '/');
    JoinSplit(path, '/');
    assert segments[0] == "";
    JoinCons(segments[0], segments[1..], "/");
    assert segments[1..] == [segments[1]] + segments[2..];
    JoinCons(segments[1], segments[2..], "/");
    if |segments| > 3 {
      assert segments[2..] == [segments[2]] + segments[3..];
      JoinCons(segments[2], segments[3..], "/");
    } else {
      assert segments[2..] == [segments[2]];
    }
  }

  /** The reassembly with a truthiness test on the sub-path differs only when
      the path ends with a '/' right after the endpoint. */
  lemma ReassembleTruthy(path: string)
    requires |path| > 0 && path[0] == '/'
    requires MajorEndpoint(path).Ok?
    ensures var rest := SubPath(path);
      path == "/" + ApiVersion(path).value + "/" + MajorEndpoint(path).value + (if rest != "" then "/" + rest else "")
      <==> (|Split(path, '/')| == 3 || rest != "")
  {
    Reassemble(path);
    var segments := Split(path, '/');
    var head := "/" + ApiVersion(path).value + "/" + MajorEndpoint(path).value;
    if |segments| > 3 && SubPath(path) == "" {
      assert path == head + "/";
      assert |path| > |head|;
    }
  }
}
