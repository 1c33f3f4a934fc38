/** The Omni startup command: the image-tag classifier and the customizer loop of
    newOmni (omni.go). */
module OmniImage {
  import opened Common

  // ------------------------------------------------------------------------
  // strings.Cut, strings.LastIndex and the tag expression
  // ------------------------------------------------------------------------

  /** The part of s before the first c; all of s when c does not occur. */
  function Before(s: string, c: char): (r: string)
    ensures r <= s && c !in r
    ensures r == s || (|r| < |s| && s[|r|] == c)
  {
    if s == "" || s[0] == c then "" else [s[0]] + Before(s[1..], c)
  }

  /** strings.LastIndex for a single byte. */
  function LastIndex(s: string, c: char): (r: int)
    ensures -1 <= r < |s|
    ensures r >= 0 ==> s[r] == c
    ensures forall k :: r < k < |s| ==> s[k] != c
  {
    if s == "" then -1
    else if s[|s| - 1] == c then |s| - 1
    else LastIndex(s[..|s| - 1], c)
  }

  predicate Boundary(c: char) {
    c == '.' || c == '_' || c == '-'
  }

  /** 2026[.-]r[1-3] */
  predicate PreGAVersion(v: string) {
    |v| == 7 && v[..4] == "2026" && (v[4] == '.' || v[4] == '-') && v[5] == 'r' && '1' <= v[6] <= '3'
  }

  /** (?:^|[._-])2026[.-]r[1-3](?:$|[._-]) matched with the version at k. */
  predicate MatchAt(tag: string, k: int) {
    && 0 <= k <= |tag| - 7
    && PreGAVersion(tag[k..k + 7])
    && (k == 0 || Boundary(tag[k - 1]))
    && (k + 7 == |tag| || Boundary(tag[k + 7]))
  }

  /** MatchString: scan for a match at or after `from`. */
  function Scan(tag: string, from: nat): (r: bool)
    ensures r <==> exists k :: from <= k && MatchAt(tag, k)
    decreases |tag| - from
  {
    if from > |tag| then false
    else if MatchAt(tag, from) then true
    else Scan(tag, from + 1)
  }

  const LISTEN_ARGS := ["--listen-addresses=0.0.0.0"]

  function ImageTag(image: string): Option<string> {
    var tagIndex := LastIndex(image, ':');
    if tagIndex > LastIndex(image, '/') then Some(image[tagIndex + 1..]) else None
  }

  /** The tag of a reference: what follows the last colon, if no slash does. */
  function TagOf(reference: string): Option<string> {
    ImageTag(Before(reference, '@'))
  }

  function DefaultOmniStartArgs(reference: string): seq<string> {
    match TagOf(reference)
    case Some(tag) => if Scan(tag, 0) then [] else LISTEN_ARGS
    case None => LISTEN_ARGS
  }

  // ------------------------------------------------------------------------
  // The classifier against its grammar
  // ------------------------------------------------------------------------

  /** tag = left version right, each neighbour empty or ending at a boundary. */
  ghost predicate TagParts(tag: string, left: string, version: string, right: string) {
    && tag == left + version + right
    && PreGAVersion(version)
    && (left == "" || Boundary(left[|left| - 1]))
    && (right == "" || Boundary(right[0]))
  }

  ghost predicate PreGATag(tag: string) {
    exists left: string, version: string, right: string :: TagParts(tag, left, version, right)
  }

  ghost predicate NamedReference(reference: string, repository: string, tag: string, digest: string) {
    && reference == repository + ":" + tag + digest
    && '@' !in repository && '@' !in tag && ':' !in tag && '/' !in tag
    && (digest == "" || digest[0] == '@')
  }

  /** reference = repository : tag [@ digest], where the tag is pre-GA, the name has
      no @, and the tag has neither : nor /. */
  ghost predicate PreGAReference(reference: string) {
    exists repository: string, tag: string, digest: string ::
      && NamedReference(reference, repository, tag, digest)
      && PreGATag(tag)
  }

  lemma MatchHasParts(tag: string, k: nat)
    requires MatchAt(tag, k)
    ensures TagParts(tag, tag[..k], tag[k..k + 7], tag[k + 7..])
  {
    hide PreGAVersion, Boundary, Scan;
    assert tag[..k] + tag[k..k + 7] + tag[k + 7..] == tag;
  }

  lemma PartsMatch(tag: string, left: string, version: string, right: string)
    requires TagParts(tag, left, version, right)
    ensures MatchAt(tag, |left|)
  {
    hide Boundary, Scan;
    var k := |left|;
    assert |version| == 7;
    hide PreGAVersion;
    assert tag[k..k + 7] == version;
    assert k > 0 ==> tag[k - 1] == left[k - 1];
    assert right != "" ==> tag[k + 7] == right[0];
  }

  lemma MatchIsPreGATag(tag: string)
    ensures Scan(tag, 0) <==> PreGATag(tag)
  {
    hide PreGAVersion, Boundary, TagParts;
    if Scan(tag, 0) {
      var k :| 0 <= k && MatchAt(tag, k);
      MatchHasParts(tag, k);
    }
    if PreGATag(tag) {
      var left, version, right :| TagParts(tag, left, version, right);
      PartsMatch(tag, left, version, right);
    }
  }

  /** Cutting at the digest leaves name and tag. */
  lemma BeforeIsLongestFree(name: string, rest: string, c: char)
    requires c !in name
    requires rest == "" || rest[0] == c
    ensures Before(name + rest, c) == name
  {
    var r := Before(name + rest, c);
    var s := name + rest;
    assert forall k :: 0 <= k < |name| ==> s[k] == name[k] && s[k] != c;
    assert forall k :: 0 <= k < |r| ==> s[k] == r[k] && s[k] != c;
    assert |name| < |s| ==> s[|name|] == c;
    assert |r| == |name|;
    assert s[..|name|] == name;
  }

  lemma LastIndexUnique(s: string, c: char, k: nat)
    requires k < |s| && s[k] == c
    requires forall j :: k < j < |s| ==> s[j] != c
    ensures LastIndex(s, c) == k
  {
  }

  lemma TagOfNamedReference(reference: string, repository: string, tag: string, digest: string)
    requires NamedReference(reference, repository, tag, digest)
    ensures TagOf(reference) == Some(tag)
  {
    var name := repository + ":" + tag;
    BeforeIsLongestFree(name, digest, '@');
    assert forall j :: |repository| < j < |name| ==> name[j] == tag[j - |repository| - 1];
    LastIndexUnique(name, ':', |repository|);
    assert name[|repository| + 1..] == tag;
  }

  lemma ReferenceWithTagIsNamed(reference: string)
    requires TagOf(reference).Some?
    ensures exists repository: string, tag: string, digest: string ::
      NamedReference(reference, repository, tag, digest) && TagOf(reference) == Some(tag)
  {
    var image := Before(reference, '@');
    var tagIndex := LastIndex(image, ':');
    var repository, tag, digest := image[..tagIndex], image[tagIndex + 1..], reference[|image|..];
    assert image == repository + ":" + tag;
    assert NamedReference(reference, repository, tag, digest);
  }

  /** The flagless command is chosen exactly for the references of the grammar. */
  lemma ClassifierAgreesWithGrammar(reference: string)
    ensures DefaultOmniStartArgs(reference) == [] <==> PreGAReference(reference)
  {
    if DefaultOmniStartArgs(reference) == [] {
      ReferenceWithTagIsNamed(reference);
      var repository, tag, digest :| NamedReference(reference, repository, tag, digest)
          && TagOf(reference) == Some(tag);
      MatchIsPreGATag(tag);
    }
    if PreGAReference(reference) {
      var repository, tag, digest :| NamedReference(reference, repository, tag, digest) && PreGATag(tag);
      TagOfNamedReference(reference, repository, tag, digest);
      MatchIsPreGATag(tag);
    }
  }

  /** Pinning a reference with anything after an @ never changes the command. */
  lemma DigestIrrelevant(reference: string, digest: string)
    ensures DefaultOmniStartArgs(reference + "@" + digest) == DefaultOmniStartArgs(reference)
  {
    var image := Before(reference, '@');
    var full := reference + "@" + digest;
    assert full == image + full[|image|..];
    BeforeIsLongestFree(image, full[|image|..], '@');
  }

  lemma LastIndexAfterPrefix(prefix: string, s: string, c: char)
    ensures LastIndex(s, c) >= 0 ==> LastIndex(prefix + s, c) == |prefix| + LastIndex(s, c)
    ensures LastIndex(s, c) < 0 ==> LastIndex(prefix + s, c) < |prefix|
  {
    var k := LastIndex(s, c);
    var t := prefix + s;
    assert forall j :: |prefix| <= j < |t| ==> t[j] == s[j - |prefix|];
    if k >= 0 {
      LastIndexUnique(t, c, |prefix| + k);
    }
  }

  lemma BeforeUnderRegistry(prefix: string, reference: string)
    requires '@' !in prefix
    ensures Before(prefix + reference, '@') == prefix + Before(reference, '@')
  {
    var image := Before(reference, '@');
    assert prefix + reference == (prefix + image) + reference[|image|..];
    BeforeIsLongestFree(prefix + image, reference[|image|..], '@');
  }

  lemma LastSlashUnderRegistry(prefix: string, image: string)
    requires prefix != "" && prefix[|prefix| - 1] == '/'
    ensures LastIndex(prefix + image, '/') == |prefix| + LastIndex(image, '/')
  {
    LastIndexAfterPrefix(prefix, image, '/');
    assert (prefix + image)[|prefix| - 1] == '/';
  }

  lemma ImageTagUnderRegistry(prefix: string, image: string)
    requires prefix != "" && prefix[|prefix| - 1] == '/'
    ensures ImageTag(prefix + image) == ImageTag(image)
  {
    LastIndexAfterPrefix(prefix, image, ':');
    LastSlashUnderRegistry(prefix, image);
    var k := LastIndex(image, ':');
    if k >= 0 {
      assert (prefix + image)[|prefix| + k + 1..] == image[k + 1..];
    }
  }

  /** Moving an image under a registry path never changes the command. */
  lemma RegistryIrrelevant(registry: string, reference: string)
    requires '@' !in registry
    ensures DefaultOmniStartArgs(registry + "/" + reference) == DefaultOmniStartArgs(reference)
  {
    var prefix := registry + "/";
    assert prefix != "" && prefix[|prefix| - 1] == '/' && '@' !in prefix;
    hide Before, ImageTag, Scan;
    BeforeUnderRegistry(prefix, reference);
    ImageTagUnderRegistry(prefix, Before(reference, '@'));
  }

  // ------------------------------------------------------------------------
  // The customizer loop
  // ------------------------------------------------------------------------

  /** The two request fields the loop looks at. */
  datatype Request = Request(image: string, cmd: seq<string>)

  /** A testcontainers customizer: any function of the request, which may fail.
      inPlace says that a command of unchanged length is edited inside the existing
      slice instead of being replaced. */
  datatype Customizer = Customizer(edit: Request -> Result<Request, int>, inPlace: bool)

  function Automatic(image: string): Request {
    Request(image, ["start-single-server"] + DefaultOmniStartArgs(image))
  }

  /** Applying customizers with nothing in between. */
  function Plain(req: Request, customizers: seq<Customizer>): Result<Request, int>
    decreases |customizers|
  {
    if customizers == [] then Ok(req)
    else
      match customizers[0].edit(req)
      case Err(e) => Err(e)
      case Ok(next) => Plain(next, customizers[1..])
  }

  /** One turn of newOmni's loop after the customizer has run. */
  function Adjust(before: Request, after: Request, automaticCmd: bool): (Request, bool) {
    var stillAutomatic := automaticCmd && after.cmd == before.cmd;
    (if stillAutomatic && after.image != before.image then Automatic(after.image) else after, stillAutomatic)
  }

  function Loop(req: Request, automaticCmd: bool, customizers: seq<Customizer>): Result<Request, int>
    decreases |customizers|
  {
    if customizers == [] then Ok(req)
    else
      match customizers[0].edit(req)
      case Err(e) => Err(e)
      case Ok(after) =>
        var (next, auto) := Adjust(req, after, automaticCmd);
        Loop(next, auto, customizers[1..])
  }

  lemma LoopTurn(req: Request, automaticCmd: bool, customizers: seq<Customizer>)
    requires customizers != []
    ensures var ran := customizers[0].edit(req);
            && (ran.Err? ==> Loop(req, automaticCmd, customizers) == Err(ran.error))
            && (ran.Ok? ==>
                  var adjusted := Adjust(req, ran.value, automaticCmd);
                  Loop(req, automaticCmd, customizers) == Loop(adjusted.0, adjusted.1, customizers[1..]))
  {
  }

  lemma LoopEnd(req: Request, automaticCmd: bool)
    ensures Loop(req, automaticCmd, []) == Ok(req)
  {
  }

  class ContainerRequest {
    var image: string
    var cmd: array<string>

    function View(): Request
      reads this, cmd
    {
      Request(image, cmd[..])
    }

    constructor (image: string)
      ensures View() == Automatic(image)
      ensures fresh(cmd)
    {
      this.image := image;
      var args := ["start-single-server"] + DefaultOmniStartArgs(image);
      cmd := new string[|args|](i requires 0 <= i < |args| => args[i]);
      new;
      assert cmd[..] == args;
    }

    method SetCmd(args: seq<string>)
      modifies this`cmd
      ensures cmd[..] == args && fresh(cmd)
    {
      cmd := new string[|args|](i requires 0 <= i < |args| => args[i]);
      assert cmd[..] == args;
    }

    method Customize(customizer: Customizer) returns (err: Option<int>)
      modifies this, cmd
      ensures cmd == old(cmd) || fresh(cmd)
      ensures match old(customizer.edit(View()))
              case Err(e) => err == Some(e)
              case Ok(after) => err == None && View() == after
    {
      var outcome := customizer.edit(Request(image, cmd[..]));
      if outcome.Err? {
        return Some(outcome.error);
      }
      image := outcome.value.image;
      var args := outcome.value.cmd;
      if customizer.inPlace && |args| == cmd.Length {
        forall i | 0 <= i < |args| {
          cmd[i] := args[i];
        }
        assert cmd[..] == args;
      } else {
        SetCmd(args);
      }
      err := None;
    }
  }

  /** The loop of newOmni, up to the point where the request is handed to
      testcontainers. */
  method BuildRequest(image: string, customizers: seq<Customizer>)
    returns (req: ContainerRequest, err: Option<int>)
    ensures fresh(req)
    ensures match Loop(Automatic(image), true, customizers)
            case Err(e) => err == Some(e)
            case Ok(final) => err == None && req.View() == final
  {
    hide Loop, Scan, TagOf, Before;
    req := new ContainerRequest(image);
    err := None;
    var automaticCmd := true;
    var i := 0;
    while i < |customizers|
      invariant 0 <= i <= |customizers|
      invariant fresh(req) && fresh(req.cmd) && err == None
      invariant Loop(Automatic(image), true, customizers) == Loop(req.View(), automaticCmd, customizers[i..])
    {
      assert customizers[i..][0] == customizers[i] && customizers[i..][1..] == customizers[i + 1..];
      LoopTurn(req.View(), automaticCmd, customizers[i..]);
      var previousImage, previousCmd := req.image, req.cmd[..];
      err := req.Customize(customizers[i]);
      if err.Some? {
        return;
      }
      if req.cmd[..] != previousCmd {
        automaticCmd := false;
      }
      if automaticCmd && req.image != previousImage {
        req.SetCmd(["start-single-server"] + DefaultOmniStartArgs(req.image));
      }
      i := i + 1;
    }
    assert customizers[i..] == [];
    LoopEnd(req.View(), automaticCmd);
  }

  // ------------------------------------------------------------------------
  // What the loop computes
  // ------------------------------------------------------------------------

  /** The customizer, given the automatic request for `image`, leaves Cmd alone and
      moves the image to `next`. */
  predicate KeepsCmd(image: string, customizer: Customizer, next: string) {
    customizer.edit(Automatic(image)) == Ok(Request(next, Automatic(image).cmd))
  }

  /** Every customizer keeps Cmd along this chain of images. */
  ghost predicate AutomaticChain(images: seq<string>, customizers: seq<Customizer>) {
    && |images| == |customizers| + 1
    && forall k :: 0 <= k < |customizers| ==> KeepsCmd(images[k], customizers[k], images[k + 1])
  }

  /** The customizer fails on the automatic request for `image` or changes its Cmd. */
  ghost predicate EndsAutomatic(image: string, customizer: Customizer) {
    forall next :: !KeepsCmd(image, customizer, next)
  }

  lemma KeptCmdStep(image: string, customizer: Customizer, next: string, rest: seq<Customizer>)
    requires KeepsCmd(image, customizer, next)
    ensures Loop(Automatic(image), true, [customizer] + rest) == Loop(Automatic(next), true, rest)
  {
    assert ([customizer] + rest)[1..] == rest;
  }

  lemma AutomaticChainTail(images: seq<string>, customizers: seq<Customizer>)
    requires AutomaticChain(images, customizers) && customizers != []
    ensures AutomaticChain(images[1..], customizers[1..])
  {
  }

  /** While no customizer has touched Cmd, the command follows the image. */
  lemma {:induction false} CommandFollowsImage(images: seq<string>, customizers: seq<Customizer>, rest: seq<Customizer>)
    requires AutomaticChain(images, customizers)
    ensures Loop(Automatic(images[0]), true, customizers + rest)
         == Loop(Automatic(images[|images| - 1]), true, rest)
    decreases |customizers|
  {
    hide Automatic, KeepsCmd;
    if customizers == [] {
      assert customizers + rest == rest;
    } else {
      KeptCmdStep(images[0], customizers[0], images[1], customizers[1..] + rest);
      assert customizers + rest == [customizers[0]] + (customizers[1..] + rest);
      AutomaticChainTail(images, customizers);
      CommandFollowsImage(images[1..], customizers[1..], rest);
    }
  }

  /** Once a customizer owns the command, the loop adds nothing. */
  lemma {:induction false} OwnedCommandIsPlain(req: Request, customizers: seq<Customizer>)
    ensures Loop(req, false, customizers) == Plain(req, customizers)
    decreases |customizers|
  {
    if customizers == [] {
    } else {
      match customizers[0].edit(req)
      case Err(_) =>
      case Ok(after) => OwnedCommandIsPlain(after, customizers[1..]);
    }
  }

  /** From the first customizer that fails or changes Cmd on, the result is that of
      plain application. */
  lemma TakeoverIsPlain(image: string, customizers: seq<Customizer>)
    requires customizers != [] && EndsAutomatic(image, customizers[0])
    ensures Loop(Automatic(image), true, customizers) == Plain(Automatic(image), customizers)
  {
    match customizers[0].edit(Automatic(image))
    case Err(_) =>
    case Ok(after) =>
      assert !KeepsCmd(image, customizers[0], after.image);
      OwnedCommandIsPlain(after, customizers[1..]);
  }

  /** The automatic prefix of a list: the images it passes through. */
  lemma {:induction false} AutomaticPrefix(image: string, customizers: seq<Customizer>) returns (images: seq<string>)
    ensures 1 <= |images| <= |customizers| + 1 && images[0] == image
    ensures AutomaticChain(images, customizers[..|images| - 1])
    ensures |images| <= |customizers| ==> EndsAutomatic(images[|images| - 1], customizers[|images| - 1])
    decreases |customizers|
  {
    hide KeepsCmd;
    images := [image];
    if customizers == [] || EndsAutomatic(image, customizers[0]) {
    } else {
      var next :| KeepsCmd(image, customizers[0], next);
      var tail := AutomaticPrefix(next, customizers[1..]);
      images := [image] + tail;
      assert customizers[..|images| - 1][1..] == customizers[1..][..|tail| - 1];
      forall k | 0 <= k < |images| - 1 ensures KeepsCmd(images[k], customizers[k], images[k + 1]) {
        if k > 0 {
          assert KeepsCmd(tail[k - 1], customizers[1..][..|tail| - 1][k - 1], tail[k]);
        }
      }
      if |images| <= |customizers| {
        assert customizers[1..][|tail| - 1] == customizers[|images| - 1];
      }
    }
  }

  /** The list runs through a chain of images with the matching automatic command;
      if the chain uses up the list, the final command is the automatic one for the
      final image, and otherwise the rest is exactly plain application. */
  ghost predicate ClosedForm(image: string, customizers: seq<Customizer>, images: seq<string>) {
    && 1 <= |images| <= |customizers| + 1 && images[0] == image
    && AutomaticChain(images, customizers[..|images| - 1])
    && var k := |images| - 1;
       var final := Loop(Automatic(image), true, customizers);
       if k == |customizers| then final == Ok(Automatic(images[k]))
       else EndsAutomatic(images[k], customizers[k]) && final == Plain(Automatic(images[k]), customizers[k..])
  }

  /** The closed form holds for every list of customizers. */
  lemma LoopClosedForm(image: string, customizers: seq<Customizer>)
    ensures exists images: seq<string> :: ClosedForm(image, customizers, images)
  {
    hide Automatic, EndsAutomatic, AutomaticChain;
    var images := AutomaticPrefix(image, customizers);
    var k := |images| - 1;
    assert customizers[..k] + customizers[k..] == customizers;
    CommandFollowsImage(images, customizers[..k], customizers[k..]);
    if k < |customizers| {
      TakeoverIsPlain(images[k], customizers[k..]);
    }
    assert ClosedForm(image, customizers, images);
  }
}
