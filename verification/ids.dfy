/** Resource paths, the recovery of an instance path from a database path, and the
    grammar of resource IDs (util.go, admin_ops.go, options.go).

    A Go string is the sequence of its bytes; each byte is one char here. */
module Ids {
  import opened Common

  /** Two path elements with the slash between them. */
  function Slash(head: string, rest: string): string {
    head + "/" + rest
  }

  function InstancePath(project: string, instance: string): string {
    Slash("projects", Slash(project, Slash("instances", instance)))
  }

  function DatabasePath(project: string, instance: string, database: string): string {
    Slash("projects", Slash(project, Slash("instances", Slash(instance, Slash("databases", database)))))
  }

  // ------------------------------------------------------------------------
  // strings.Index and the inverse of DatabasePath
  // ------------------------------------------------------------------------

  predicate OccursAt(s: string, m: string, k: int) {
    0 <= k <= |s| - |m| && s[k..k + |m|] == m
  }

  /** strings.Index: the first occurrence of m at or after `from`, or -1. */
  function Index(s: string, m: string, from: nat): (r: int)
    ensures r == -1 || (from <= r && OccursAt(s, m, r))
    ensures forall k :: from <= k && OccursAt(s, m, k) ==> 0 <= r <= k
    decreases |s| - from
  {
    if from + |m| > |s| then -1
    else if OccursAt(s, m, from) then from
    else Index(s, m, from + 1)
  }

  const DATABASES_MARKER := "/databases/"

  function InstancePathFromDatabasePath(dbPath: string): string {
    var i := Index(dbPath, DATABASES_MARKER, 0);
    if i >= 0 then dbPath[..i] else dbPath
  }

  predicate NoSlash(s: string) {
    forall k :: 0 <= k < |s| ==> s[k] != '/'
  }

  /** k is the first place where the marker occurs in s. */
  ghost predicate FirstMarker(s: string, k: nat) {
    && OccursAt(s, DATABASES_MARKER, k)
    && forall j :: 0 <= j < k ==> !OccursAt(s, DATABASES_MARKER, j)
  }

  /** Text up to the first slash: any two such splits of one string agree. */
  lemma SplitAtSlash(a: string, x: string, b: string, y: string)
    requires NoSlash(a) && NoSlash(b)
    requires Slash(a, x) == Slash(b, y)
    ensures a == b && x == y
  {
    var s, t := Slash(a, x), Slash(b, y);
    assert forall k :: 0 <= k < |a| ==> s[k] == a[k] && s[k] != '/';
    assert forall k :: 0 <= k < |b| ==> t[k] == b[k] && t[k] != '/';
    assert s[|a|] == '/' && t[|b|] == '/';
    assert |a| == |b|;
    assert s[..|a|] == a && t[..|b|] == b;
    assert s[|a| + 1..] == x && t[|b| + 1..] == y;
  }

  /** "databases/" starts seg/rest only if seg is "databases". */
  lemma SegmentIsDatabases(seg: string, rest: string)
    requires NoSlash(seg)
    ensures "databases/" <= Slash(seg, rest) <==> seg == "databases"
  {
    var s := Slash(seg, rest);
    if seg == "databases" {
      assert s[..10] == "databases/";
    }
    if "databases/" <= s {
      assert s == Slash("databases", s[10..]);
      SplitAtSlash(seg, rest, "databases", s[10..]);
    }
  }

  lemma NoMarkerInside(seg: string, rest: string, k: nat)
    requires NoSlash(seg) && k < |seg|
    ensures !OccursAt(Slash(seg, rest), DATABASES_MARKER, k)
  {
    var s := Slash(seg, rest);
    assert s[k] == seg[k];
    assert k + 11 <= |s| ==> s[k..k + 11][0] == s[k];
  }

  lemma OccursBehind(a: string, b: string, m: string, k: nat)
    ensures OccursAt(a + b, m, |a| + k) <==> OccursAt(b, m, k)
  {
  }

  lemma MarkerAtStart(rest: string)
    ensures OccursAt("/" + rest, DATABASES_MARKER, 0) <==> "databases/" <= rest
  {
    var s := "/" + rest;
    assert DATABASES_MARKER[1..] == "databases/";
    if |rest| >= 10 {
      assert s[0..11][1..] == rest[..10];
    }
    if "databases/" <= rest {
      assert rest[..10] == "databases/";
      assert s[0..11] == "/" + rest[..10] && DATABASES_MARKER == "/" + "databases/";
    }
  }

  /** Occurrences in seg/rest: none inside seg, one at its slash exactly if rest
      starts with "databases/", and the later ones are those of rest. */
  lemma OccurrenceInSegment(seg: string, rest: string, k: nat)
    requires NoSlash(seg)
    ensures k < |seg| ==> !OccursAt(Slash(seg, rest), DATABASES_MARKER, k)
    ensures OccursAt(Slash(seg, rest), DATABASES_MARKER, |seg|) <==> "databases/" <= rest
    ensures OccursAt(Slash(seg, rest), DATABASES_MARKER, |seg| + 1 + k) <==> OccursAt(rest, DATABASES_MARKER, k)
  {
    var s := Slash(seg, rest);
    hide OccursAt;
    if k < |seg| {
      NoMarkerInside(seg, rest, k);
    }
    MarkerAtStart(rest);
    assert s == seg + ("/" + rest) && s == (seg + "/") + rest;
    OccursBehind(seg, "/" + rest, DATABASES_MARKER, 0);
    OccursBehind(seg + "/", rest, DATABASES_MARKER, k);
  }

  lemma FirstMarkerHere(seg: string, rest: string)
    requires NoSlash(seg) && "databases/" <= rest
    ensures FirstMarker(Slash(seg, rest), |seg|)
  {
    forall j: nat | j <= |seg| ensures j < |seg| ==> !OccursAt(Slash(seg, rest), DATABASES_MARKER, j) {
      OccurrenceInSegment(seg, rest, j);
    }
    OccurrenceInSegment(seg, rest, 0);
  }

  lemma FirstMarkerLater(seg: string, rest: string, k: nat)
    requires NoSlash(seg) && !("databases/" <= rest) && FirstMarker(rest, k)
    ensures FirstMarker(Slash(seg, rest), |seg| + 1 + k)
  {
    OccurrenceInSegment(seg, rest, k);
    forall j: nat | j < |seg| + 1 + k ensures !OccursAt(Slash(seg, rest), DATABASES_MARKER, j) {
      OccurrenceInSegment(seg, rest, if j > |seg| then j - |seg| - 1 else j);
    }
  }

  lemma LiteralSegments()
    ensures NoSlash("projects") && NoSlash("instances") && NoSlash("databases")
    ensures |"projects"| == 8 && |"instances"| == 9
    ensures "instances" != "databases"
  {
  }

  lemma InstancePathLength(project: string, instance: string)
    ensures |InstancePath(project, instance)| == |project| + |instance| + 20
  {
  }

  /** Where the marker first occurs in a database path: after the leading
      "projects", after the project, or after the instance. */
  lemma FirstMarkerInPath(project: string, instance: string, database: string)
    requires NoSlash(project) && NoSlash(instance)
    ensures FirstMarker(DatabasePath(project, instance, database),
                        if project == "databases" then 8
                        else if instance == "databases" then 19 + |project|
                        else |InstancePath(project, instance)|)
  {
    LiteralSegments();
    InstancePathLength(project, instance);
    hide FirstMarker, NoSlash, Slash, InstancePath;
    var tail := Slash("databases", database);
    var fromInstance := Slash(instance, tail);
    var fromInstances := Slash("instances", fromInstance);
    var fromProject := Slash(project, fromInstances);
    SegmentIsDatabases(project, fromInstances);
    SegmentIsDatabases("instances", fromInstance);
    SegmentIsDatabases(instance, tail);
    SegmentIsDatabases("databases", database);
    if project == "databases" {
      FirstMarkerHere("projects", fromProject);
    } else if instance == "databases" {
      FirstMarkerHere("instances", fromInstance);
      FirstMarkerLater(project, fromInstances, 9);
      FirstMarkerLater("projects", fromProject, |project| + 10);
    } else {
      FirstMarkerHere(instance, tail);
      FirstMarkerLater("instances", fromInstance, |instance|);
      FirstMarkerLater(project, fromInstances, 10 + |instance|);
      FirstMarkerLater("projects", fromProject, |project| + 11 + |instance|);
    }
  }

  /** A database path continues its instance path. */
  lemma InstancePathIsPrefix(project: string, instance: string, database: string)
    ensures InstancePath(project, instance) <= DatabasePath(project, instance, database)
  {
  }

  /** The instance path is recovered exactly when neither ID is "databases". */
  lemma PathInverse(project: string, instance: string, database: string)
    requires NoSlash(project) && NoSlash(instance)
    ensures InstancePathFromDatabasePath(DatabasePath(project, instance, database)) == InstancePath(project, instance)
       <==> project != "databases" && instance != "databases"
  {
    FirstMarkerInPath(project, instance, database);
    InstancePathIsPrefix(project, instance, database);
    var s := DatabasePath(project, instance, database);
    assert |s[..Index(s, DATABASES_MARKER, 0)]| == Index(s, DATABASES_MARKER, 0);
  }

  /** The recovered path does not depend on the database. */
  lemma DropKeyOfInstance(project: string, instance: string, database: string, other: string)
    requires NoSlash(project) && NoSlash(instance)
    ensures InstancePathFromDatabasePath(DatabasePath(project, instance, database))
         == InstancePathFromDatabasePath(DatabasePath(project, instance, other))
  {
    FirstMarkerInPath(project, instance, database);
    FirstMarkerInPath(project, instance, other);
    InstancePathIsPrefix(project, instance, database);
    InstancePathIsPrefix(project, instance, other);
    var path := InstancePath(project, instance);
    var s, t := DatabasePath(project, instance, database), DatabasePath(project, instance, other);
    var k := Index(s, DATABASES_MARKER, 0);
    assert k == Index(t, DATABASES_MARKER, 0) && 0 <= k <= |path|;
    hide DatabasePath, InstancePath, FirstMarker;
    assert s[..k] == path[..k] && t[..k] == path[..k];
  }

  // ------------------------------------------------------------------------
  // Injectivity
  // ------------------------------------------------------------------------

  /** Distinct slash-free ID triples never share a database path. */
  lemma DatabasePathInjective(p: string, i: string, d: string, p': string, i': string, d': string)
    requires NoSlash(p) && NoSlash(i) && NoSlash(p') && NoSlash(i')
    requires DatabasePath(p, i, d) == DatabasePath(p', i', d')
    ensures p == p' && i == i' && d == d'
  {
    var z, z' := Slash("databases", d), Slash("databases", d');
    var y, y' := Slash("instances", Slash(i, z)), Slash("instances", Slash(i', z'));
    SplitAtSlash("projects", Slash(p, y), "projects", Slash(p', y'));
    SplitAtSlash(p, y, p', y');
    SplitAtSlash("instances", Slash(i, z), "instances", Slash(i', z'));
    SplitAtSlash(i, z, i', z');
    SplitAtSlash("databases", d, "databases", d');
  }

  /** Distinct slash-free ID pairs never share an instance path, so one lock key
      stands for one instance. */
  lemma InstancePathInjective(p: string, i: string, p': string, i': string)
    requires NoSlash(p) && NoSlash(p')
    requires InstancePath(p, i) == InstancePath(p', i')
    ensures p == p' && i == i'
  {
    var y, y' := Slash("instances", i), Slash("instances", i');
    SplitAtSlash("projects", Slash(p, y), "projects", Slash(p', y'));
    SplitAtSlash(p, y, p', y');
    SplitAtSlash("instances", i, "instances", i');
  }

  // ------------------------------------------------------------------------
  // The ID grammar
  // ------------------------------------------------------------------------

  datatype Kind = Project | Instance | Database {
    function MinLen(): nat {
      if this == Project then 6 else 2
    }
    function MaxLen(): nat {
      if this == Instance then 64 else 30
    }
  }

  datatype IdError =
    | EmptyId
    | BlankId
    | TooShort
    | TooLong
    | BadStart
    | BadEnd
    | BadByte(at: nat)

  predicate IsLowercaseLetter(b: char) {
    'a' <= b <= 'z'
  }

  predicate IsLowercaseLetterOrDigit(b: char) {
    IsLowercaseLetter(b) || '0' <= b <= '9'
  }

  predicate IsResourceIDChar(b: char, allowUnderscore: bool) {
    IsLowercaseLetterOrDigit(b) || b == '-' || (allowUnderscore && b == '_')
  }

  /** The three-byte white space characters: U+1680, U+2000 to U+200A, U+2028, U+2029,
      U+202F, U+205F and U+3000. */
  predicate IsWideSpace(a: char, b: char, c: char) {
    || (a == '\U{E1}' && b == '\U{9A}' && c == '\U{80}')
    || (a == '\U{E2}' && b == '\U{80}'
        && ('\U{80}' <= c <= '\U{8A}' || c == '\U{A8}' || c == '\U{A9}' || c == '\U{AF}'))
    || (a == '\U{E2}' && b == '\U{81}' && c == '\U{9F}')
    || (a == '\U{E3}' && b == '\U{80}' && c == '\U{80}')
  }

  /** How many bytes the white space character takes that s starts with in UTF-8, or 0 if
      it starts with none: ASCII white space, U+0085, U+00A0 and the wide ones. */
  function SpaceWidth(s: string): (w: nat)
    ensures w <= |s|
  {
    if s == "" then 0
    else if s[0] == ' ' || '\t' <= s[0] <= '\r' then 1
    else if |s| >= 2 && s[0] == '\U{C2}' && (s[1] == '\U{85}' || s[1] == '\U{A0}') then 2
    else if |s| >= 3 && IsWideSpace(s[0], s[1], s[2]) then 3
    else 0
  }

  /** strings.TrimSpace(s) == "" */
  predicate Blank(s: string)
    decreases |s|
  {
    s == "" || (SpaceWidth(s) > 0 && Blank(s[SpaceWidth(s)..]))
  }

  /** The language of accepted IDs, as README and the error texts describe it. */
  predicate ValidId(kind: Kind, id: string) {
    && kind.MinLen() <= |id| <= kind.MaxLen()
    && IsLowercaseLetter(id[0])
    && IsLowercaseLetterOrDigit(id[|id| - 1])
    && forall k :: 0 <= k < |id| ==> IsResourceIDChar(id[k], kind == Database)
  }

  predicate RightLength(kind: Kind, id: string) {
    !Blank(id) && kind.MinLen() <= |id| <= kind.MaxLen()
  }

  predicate FirstBadByte(id: string, allowUnderscore: bool, i: nat)
    requires i < |id|
  {
    !IsResourceIDChar(id[i], allowUnderscore) && forall j :: 0 <= j < i ==> IsResourceIDChar(id[j], allowUnderscore)
  }

  /** validateResourceID: the checks run in order and the first failing one is
      reported; in the scan, the first offending byte. */
  method ValidateResourceID(kind: Kind, id: string) returns (err: Option<IdError>)
    ensures err == None <==> ValidId(kind, id)
    ensures err == Some(EmptyId) <==> id == ""
    ensures err == Some(BlankId) <==> id != "" && Blank(id)
    ensures err == Some(TooShort) <==> !Blank(id) && |id| < kind.MinLen()
    ensures err == Some(TooLong) <==> !Blank(id) && |id| > kind.MaxLen()
    ensures err == Some(BadStart) <==> RightLength(kind, id) && !IsLowercaseLetter(id[0])
    ensures err == Some(BadEnd) <==>
              RightLength(kind, id) && IsLowercaseLetter(id[0]) && !IsLowercaseLetterOrDigit(id[|id| - 1])
    ensures forall i: nat :: err == Some(BadByte(i)) <==>
              && RightLength(kind, id) && IsLowercaseLetter(id[0]) && IsLowercaseLetterOrDigit(id[|id| - 1])
              && 1 <= i < |id| - 1 && FirstBadByte(id, kind == Database, i)
  {
    if id == "" {
      return Some(EmptyId);
    }
    if Blank(id) {
      return Some(BlankId);
    }
    if |id| < kind.MinLen() {
      return Some(TooShort);
    }
    if |id| > kind.MaxLen() {
      return Some(TooLong);
    }
    assert !Blank(id);
    if !IsLowercaseLetter(id[0]) {
      return Some(BadStart);
    }
    if !IsLowercaseLetterOrDigit(id[|id| - 1]) {
      return Some(BadEnd);
    }
    var i := 1;
    while i < |id| - 1
      invariant 1 <= i <= |id| - 1
      invariant forall j :: 0 <= j < i ==> IsResourceIDChar(id[j], kind == Database)
    {
      if !IsResourceIDChar(id[i], kind == Database) {
        return Some(BadByte(i));
      }
      i := i + 1;
    }
    return None;
  }

  lemma ValidIdHasNoSlash(kind: Kind, id: string)
    requires ValidId(kind, id)
    ensures NoSlash(id) && id != "" && !Blank(id)
  {
  }

  lemma DatabasesIsAnId()
    ensures ValidId(Project, "databases") && ValidId(Instance, "databases")
  {
  }

  /** The grammar accepts the one ID that breaks the path inverse: for validated
      IDs the inverse fails exactly on an ID spelled "databases", and there are
      such IDs. */
  lemma ValidatedPathInverse(project: string, instance: string, database: string)
    requires ValidId(Project, project) && ValidId(Instance, instance) && ValidId(Database, database)
    ensures InstancePathFromDatabasePath(DatabasePath(project, instance, database)) == InstancePath(project, instance)
       <==> project != "databases" && instance != "databases"
    ensures ValidId(Project, "databases") && ValidId(Instance, "databases")
  {
    ValidIdHasNoSlash(Project, project);
    ValidIdHasNoSlash(Instance, instance);
    DatabasesIsAnId();
    hide *;
    PathInverse(project, instance, database);
  }

  // ------------------------------------------------------------------------
  // Random IDs
  // ------------------------------------------------------------------------

  const DATABASE_ID_FIRST_CHARS := "abcdefghijklmnopqrstuvwxyz"
  const DATABASE_ID_CHARS := DATABASE_ID_FIRST_CHARS + "0123456789"
  const ID_RANGE := 30

  predicate RandomShape(id: string) {
    && |id| == ID_RANGE
    && IsLowercaseLetter(id[0])
    && forall k :: 0 <= k < |id| ==> IsLowercaseLetterOrDigit(id[k])
  }

  /** [a-z][a-z0-9]{29} lies in the grammar of every kind of resource. */
  lemma RandomShapeIsValid(kind: Kind, id: string)
    requires RandomShape(id)
    ensures ValidId(kind, id)
  {
  }

  function FirstChar(draw: nat): (c: char)
    ensures IsLowercaseLetter(c)
  {
    DATABASE_ID_FIRST_CHARS[draw % 26]
  }

  lemma FirstCharIsPrefix(k: nat)
    requires k < 26
    ensures DATABASE_ID_CHARS[k] == DATABASE_ID_FIRST_CHARS[k] == FirstChar(k)
  {
  }

  function LaterChar(draw: nat): (c: char)
    ensures IsLowercaseLetterOrDigit(c)
  {
    var k := draw % 36;
    if k < 26 then
      FirstCharIsPrefix(k);
      DATABASE_ID_CHARS[k]
    else
      DATABASE_ID_CHARS[k]
  }

  /** The place of a character in DATABASE_ID_CHARS. */
  function CharIndex(c: char): nat
    requires IsLowercaseLetterOrDigit(c)
  {
    if IsLowercaseLetter(c) then c as int - 'a' as int else 26 + (c as int - '0' as int)
  }

  lemma LetterAt(k: nat)
    requires k < 26
    ensures DATABASE_ID_FIRST_CHARS[k] as int == 'a' as int + k
  {
  }

  lemma DigitAt(k: nat)
    requires 26 <= k < 36
    ensures DATABASE_ID_CHARS[k] as int == '0' as int + (k - 26)
  {
    assert DATABASE_ID_CHARS[k] == "0123456789"[k - 26];
  }

  /** Different draws give different characters: nothing of a draw is lost. */
  lemma DrawsAreTold(k: nat)
    ensures k < 26 ==> CharIndex(FirstChar(k)) == k
    ensures k < 36 ==> CharIndex(LaterChar(k)) == k
  {
    if k < 26 {
      LetterAt(k);
      FirstCharIsPrefix(k);
    } else if k < 36 {
      DigitAt(k);
    }
  }

  /** generateRandomID with the random number generator as the parameter `draw`:
      any draws give an ID that every kind of resource accepts, and each of its characters
      is drawn. */
  method GenerateRandomID(draw: nat -> nat) returns (id: string)
    ensures RandomShape(id)
    ensures id[0] == FirstChar(draw(0)) && forall k :: 1 <= k < ID_RANGE ==> id[k] == LaterChar(draw(k))
    ensures forall kind: Kind :: ValidId(kind, id)
  {
    hide ValidId, FirstChar, LaterChar;
    var b := new char[ID_RANGE](_ => 'a');
    b[0] := FirstChar(draw(0));
    var i := 0;
    while i < ID_RANGE - 1
      invariant 0 <= i <= ID_RANGE - 1
      invariant IsLowercaseLetter(b[0]) && b[0] == FirstChar(draw(0))
      invariant forall k :: 1 <= k <= i ==> b[k] == LaterChar(draw(k))
      invariant forall k :: 0 <= k <= i ==> IsLowercaseLetterOrDigit(b[k])
    {
      b[i + 1] := LaterChar(draw(i + 1));
      i := i + 1;
    }
    id := b[..];
    forall kind: Kind ensures ValidId(kind, id) {
      RandomShapeIsValid(kind, id);
    }
  }
}
