/** The resource URIs and their parser. */
module ResourceUri {
  import opened Domain

  datatype Kind = Project | WorkItem | CloseoutReadiness | Assignment | LaunchPacket | MemoryCandidate

  datatype Ref = Ref(kind: Kind, projectId: string, id: string)

  const PREFIX := "cairnline://projects/"

  /** The path below the prefix. */
  function Path(r: Ref): string {
    match r.kind
    case Project => r.projectId
    case WorkItem => r.projectId + "/work-items/" + r.id
    case CloseoutReadiness => r.projectId + "/work-items/" + r.id + "/closeout-readiness"
    case Assignment => r.projectId + "/assignments/" + r.id
    case LaunchPacket => r.projectId + "/assignments/" + r.id + "/launch-packet"
    case MemoryCandidate => r.projectId + "/memory-candidates/" + r.id
  }

  /** The URI builders. */
  function Build(r: Ref): string {
    PREFIX + Path(r)
  }

  /** `strings.Trim(s, "/")`. */
  function TrimSlashes(s: string): string {
    if |s| > 0 && s[0] == '/' then TrimSlashes(s[1..])
    else if |s| > 0 && s[|s| - 1] == '/' then TrimSlashes(s[..|s| - 1])
    else s
  }

  /** `strings.Split(s, "/")`. */
  function Split(s: string): (parts: seq<string>)
    ensures |parts| > 0
  {
    if s == "" then [""]
    else
      var rest := Split(s[1..]);
      if s[0] == '/' then [""] + rest
      else [[s[0]] + rest[0]] + rest[1..]
  }

  function Join(parts: seq<string>): string {
    if |parts| == 0 then ""
    else if |parts| == 1 then parts[0]
    else parts[0] + "/" + Join(parts[1..])
  }

  predicate SlashFree(s: string) {
    forall i :: 0 <= i < |s| ==> s[i] != '/'
  }

  function Classify(parts: seq<string>): Option<Ref> {
    if |parts| == 1 && parts[0] != "" then Some(Ref(Kind.Project, parts[0], ""))
    else if |parts| == 3 && parts[0] != "" && parts[1] == "work-items" && parts[2] != "" then
      Some(Ref(Kind.WorkItem, parts[0], parts[2]))
    else if |parts| == 4 && parts[0] != "" && parts[1] == "work-items" && parts[2] != ""
           && parts[3] == "closeout-readiness" then
      Some(Ref(CloseoutReadiness, parts[0], parts[2]))
    else if |parts| == 3 && parts[0] != "" && parts[1] == "assignments" && parts[2] != "" then
      Some(Ref(Kind.Assignment, parts[0], parts[2]))
    else if |parts| == 4 && parts[0] != "" && parts[1] == "assignments" && parts[2] != ""
           && parts[3] == "launch-packet" then
      Some(Ref(LaunchPacket, parts[0], parts[2]))
    else if |parts| == 3 && parts[0] != "" && parts[1] == "memory-candidates" && parts[2] != "" then
      Some(Ref(MemoryCandidate, parts[0], parts[2]))
    else None
  }

  /** `parseProjectResourceURI`. */
  function Parse(uri: string): Option<Ref> {
    if !(PREFIX <= uri) then None
    else Classify(Split(TrimSlashes(uri[|PREFIX|..])))
  }

  // ---------------------------------------------------------------- splitting and joining

  lemma {:induction false} SplitSlashFree(s: string)
    requires SlashFree(s)
    ensures Split(s) == [s]
  {
    if s != "" {
      SplitSlashFree(s[1..]);
      assert [s[0]] + s[1..] == s;
    }
  }

  lemma {:induction false} SplitFirst(s: string, t: string)
    requires SlashFree(s)
    ensures Split(s + "/" + t) == [s] + Split(t)
  {
    var u := s + "/" + t;
    if s == "" {
      assert u[1..] == t;
    } else {
      SplitFirst(s[1..], t);
      assert u[1..] == s[1..] + "/" + t;
      assert [s[0]] + s[1..] == s;
    }
  }

  /** Splitting undoes joining, for non-empty lists of slash-free parts. */
  lemma {:induction false} SplitJoin(parts: seq<string>)
    requires |parts| > 0 && forall i :: 0 <= i < |parts| ==> SlashFree(parts[i])
    ensures Split(Join(parts)) == parts
  {
    if |parts| == 1 {
      SplitSlashFree(parts[0]);
    } else {
      SplitJoin(parts[1..]);
      SplitFirst(parts[0], Join(parts[1..]));
      assert [parts[0]] + parts[1..] == parts;
    }
  }

  /** Joining undoes splitting. */
  lemma {:induction false} JoinSplit(s: string)
    ensures Join(Split(s)) == s
  {
    if s != "" {
      JoinSplit(s[1..]);
      var rest := Split(s[1..]);
      if s[0] == '/' {
        assert ([""] + rest)[1..] == rest;
        assert "" + "/" + Join(rest) == s;
      } else {
        assert [s[0]] + s[1..] == s;
        if |rest| > 1 {
          assert ([[s[0]] + rest[0]] + rest[1..])[1..] == rest[1..];
        }
      }
    }
  }

  // ---------------------------------------------------------------- the round trips

  /** The parts of a reference's path. */
  function Parts(r: Ref): seq<string> {
    match r.kind
    case Project => [r.projectId]
    case WorkItem => [r.projectId, "work-items", r.id]
    case CloseoutReadiness => [r.projectId, "work-items", r.id, "closeout-readiness"]
    case Assignment => [r.projectId, "assignments", r.id]
    case LaunchPacket => [r.projectId, "assignments", r.id, "launch-packet"]
    case MemoryCandidate => [r.projectId, "memory-candidates", r.id]
  }

  /** Non-empty, slash-free ids; a project reference carries no second id. */
  predicate WellFormed(r: Ref) {
    && r.projectId != "" && SlashFree(r.projectId)
    && if r.kind == Kind.Project then r.id == "" else r.id != "" && SlashFree(r.id)
  }

  lemma Join3(a: string, b: string, c: string)
    ensures Join([a, b, c]) == a + "/" + b + "/" + c
  {
    assert [a, b, c][1..] == [b, c] && [b, c][1..] == [c];
    assert Join([b, c]) == b + "/" + c;
    assert a + "/" + (b + "/" + c) == a + "/" + b + "/" + c;
  }

  lemma Join4(a: string, b: string, c: string, d: string)
    ensures Join([a, b, c, d]) == a + "/" + b + "/" + c + "/" + d
  {
    Join3(b, c, d);
    assert [a, b, c, d][1..] == [b, c, d];
    assert a + "/" + (b + "/" + c + "/" + d) == a + "/" + b + "/" + c + "/" + d;
  }

  lemma Literals()
    ensures "/work-items/" == "/" + "work-items" + "/"
    ensures "/assignments/" == "/" + "assignments" + "/"
    ensures "/memory-candidates/" == "/" + "memory-candidates" + "/"
    ensures "/closeout-readiness" == "/" + "closeout-readiness"
    ensures "/launch-packet" == "/" + "launch-packet"
  {
  }

  lemma Glue3(a: string, b: string, c: string)
    ensures Join([a, b, c]) == a + ("/" + b + "/") + c
  {
    Join3(a, b, c);
    assert a + "/" + b + "/" + c == a + ("/" + b + "/") + c;
  }

  lemma Glue4(a: string, b: string, c: string, d: string)
    ensures Join([a, b, c, d]) == a + ("/" + b + "/") + c + ("/" + d)
  {
    Join4(a, b, c, d);
    assert a + "/" + b + "/" + c + "/" + d == a + ("/" + b + "/") + c + ("/" + d);
  }

  lemma PathIsJoin(r: Ref)
    ensures Path(r) == Join(Parts(r))
  {
    Literals();
    match r.kind
    case Project =>
    case WorkItem => Glue3(r.projectId, "work-items", r.id);
    case CloseoutReadiness => Glue4(r.projectId, "work-items", r.id, "closeout-readiness");
    case Assignment => Glue3(r.projectId, "assignments", r.id);
    case LaunchPacket => Glue4(r.projectId, "assignments", r.id, "launch-packet");
    case MemoryCandidate => Glue3(r.projectId, "memory-candidates", r.id);
  }

  lemma PathIsTrimmed(r: Ref)
    requires WellFormed(r)
    ensures TrimSlashes(Path(r)) == Path(r)
  {
  }

  /** Parsing a built URI returns the original kind and ids. */
  lemma ParseBuild(r: Ref)
    requires WellFormed(r)
    ensures Parse(Build(r)) == Some(r)
  {
    assert Build(r)[|PREFIX|..] == Path(r);
    PathIsTrimmed(r);
    PathIsJoin(r);
    SplitJoin(Parts(r));
    ClassifyParts(r);
  }

  lemma ClassifyParts(r: Ref)
    requires WellFormed(r)
    ensures Classify(Parts(r)) == Some(r)
  {
  }

  /** Distinct references build distinct URIs. */
  lemma BuildInjective(r: Ref, q: Ref)
    requires WellFormed(r) && WellFormed(q) && Build(r) == Build(q)
    ensures r == q
  {
    ParseBuild(r);
    ParseBuild(q);
  }

  /** Rebuilding any parsed URI gives the input back with outer slashes trimmed. */
  lemma BuildParse(uri: string)
    requires Parse(uri).Some?
    ensures Build(Parse(uri).value) == PREFIX + TrimSlashes(uri[|PREFIX|..])
  {
    var t := TrimSlashes(uri[|PREFIX|..]);
    var parts, r := Split(t), Parse(uri).value;
    assert Parts(r) == parts;
    PathIsJoin(r);
    JoinSplit(t);
  }

  /** The six documented templates, and what each is read as. */
  lemma DocumentedTemplates(p: string, x: string)
    requires p != "" && SlashFree(p) && x != "" && SlashFree(x)
    ensures Parse("cairnline://projects/" + p) == Some(Ref(Kind.Project, p, ""))
    ensures Parse("cairnline://projects/" + (p + "/work-items/" + x)) == Some(Ref(Kind.WorkItem, p, x))
    ensures Parse("cairnline://projects/" + (p + "/work-items/" + x + "/closeout-readiness"))
         == Some(Ref(CloseoutReadiness, p, x))
    ensures Parse("cairnline://projects/" + (p + "/assignments/" + x)) == Some(Ref(Kind.Assignment, p, x))
    ensures Parse("cairnline://projects/" + (p + "/assignments/" + x + "/launch-packet"))
         == Some(Ref(LaunchPacket, p, x))
    ensures Parse("cairnline://projects/" + (p + "/memory-candidates/" + x)) == Some(Ref(MemoryCandidate, p, x))
  {
    ParseBuild(Ref(Kind.Project, p, ""));
    ParseBuild(Ref(Kind.WorkItem, p, x));
    ParseBuild(Ref(CloseoutReadiness, p, x));
    ParseBuild(Ref(Kind.Assignment, p, x));
    ParseBuild(Ref(LaunchPacket, p, x));
    ParseBuild(Ref(MemoryCandidate, p, x));
    hide Parse;
  }
}
