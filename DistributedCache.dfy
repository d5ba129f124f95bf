/**
 * The distributed-cache part of building a container's launch context: every cached
 * archive and file becomes a local resource of the container, keyed by its URI
 * fragment or the last component of its path, and those on the class path are
 * appended to the container's CLASSPATH variable. The sizes come from configuration
 * strings parsed as Java longs.
 *
 * The pure functions (`ParseArtifacts`, `Localize`, `ParseAll`, `Setup`) say what
 * happens; the methods over `ContainerLaunchContext` do it step by step, with loops,
 * and are proved to end in the state the functions give.
 */
module DistributedCache {
  import opened Wrappers

  /** A cache URI, reduced to its path and its optional fragment. */
  datatype Uri = Uri(path: string, fragment: Option<string>)

  datatype ResourceType = ARCHIVE | FILE
  datatype Visibility = PUBLIC | PRIVATE | APPLICATION

  /** What `newLocalResource` builds: the URI, the type, the visibility, the size and the timestamp. */
  datatype LocalResource = LocalResource(
    resource: Uri, rtype: ResourceType, visibility: Visibility, size: int, timestamp: int)

  /** The exceptions the cache setup can raise. */
  datatype CacheError =
    | NullPointer
    | InvalidSpecification(rtype: ResourceType, numUris: int, numTimestamps: int, numVisibilities: int)
    | EmptyName
    | RelativeNameRequired
    | NumberFormat(text: string)

  /** The two maps of a launch context the cache setup touches, as a value. */
  datatype Context = Context(resources: map<string, LocalResource>, env: map<string, string>)

  /** The maps after a call, and the exception it raised, if any. */
  datatype Outcome = Outcome(context: Context, error: Option<CacheError>)

  /** One cached artifact: the i-th entry of the four parallel arrays. */
  datatype Artifact = Artifact(uri: Uri, timestamp: int, size: int, visible: bool)

  const ClassPathVar: string := "CLASSPATH"

  /** The launch context of a container, reduced to its resources and its environment. */
  class ContainerLaunchContext {
    var resources: map<string, LocalResource>
    var env: map<string, string>

    constructor()
      ensures resources == map[] && env == map[]
    {
      resources := map[];
      env := map[];
    }

    function Value(): Context
      reads this
    {
      Context(resources, env)
    }
  }

  // ---------------------------------------------------------------------------
  // Names
  // ---------------------------------------------------------------------------

  /** The part of a path after its last '/': the whole path if it has none. */
  function LastComponent(path: string): (r: string)
    ensures '/' !in r
    ensures |r| <= |path| && path[|path| - |r|..] == r
    ensures |r| < |path| ==> path[|path| - |r| - 1] == '/'
    decreases |path|
  {
    if path == [] then []
    else if path[|path| - 1] == '/' then []
    else
      var p := path[..|path| - 1];
      var rest := LastComponent(p);
      var k := |p| - |rest|;
      assert p[k..] == path[k..|p|];
      assert path[k..] == path[k..|p|] + [path[|p|]];
      assert k > 0 ==> path[k - 1] == p[k - 1];
      rest + [path[|path| - 1]]
  }

  /** The key of an artifact: the URI fragment if there is one, else the file name. */
  function ResourceName(u: Uri): (r: string)
    ensures u.fragment.Some? ==> r == u.fragment.value
    ensures u.fragment.None? ==> '/' !in r && |r| <= |u.path| && r == u.path[|u.path| - |r|..]
  {
    match u.fragment
    case Some(f) => f
    case None => LastComponent(u.path)
  }

  predicate IsAbsolute(name: string) {
    |name| > 0 && name[0] == '/'
  }

  /** A name a resource may have: not empty (no path can be built from it) and relative. */
  predicate ValidName(name: string) {
    name != [] && !IsAbsolute(name)
  }

  /** The exception a name that is not valid raises. */
  function NameError(name: string): CacheError {
    if name == [] then EmptyName else RelativeNameRequired
  }

  /** A visibility flag of true gives PUBLIC, false gives PRIVATE. */
  function VisibilityOf(visible: bool): (v: Visibility)
    ensures visible <==> v == PUBLIC
    ensures !visible <==> v == PRIVATE
  {
    if visible then PUBLIC else PRIVATE
  }

  function ToResource(rtype: ResourceType, art: Artifact): LocalResource {
    LocalResource(art.uri, rtype, VisibilityOf(art.visible), art.size, art.timestamp)
  }

  // ---------------------------------------------------------------------------
  // The class path
  // ---------------------------------------------------------------------------

  /** `addCacheArtifactToClassPath` on the environment: appends the name, ':'-separated. */
  function ClassPathWith(env: map<string, string>, fileName: string): (r: map<string, string>)
    ensures r.Keys == env.Keys + {ClassPathVar}
    ensures forall k :: k in env && k != ClassPathVar ==> r[k] == env[k]
    ensures ClassPathVar !in env ==> r[ClassPathVar] == fileName
    ensures ClassPathVar in env ==> r[ClassPathVar] == env[ClassPathVar] + ":" + fileName
  {
    var cp := if ClassPathVar in env then env[ClassPathVar] + ":" + fileName else fileName;
    env[ClassPathVar := cp]
  }

  /** Names joined with ':' between them, as a reference for the class-path folds. */
  function Join(names: seq<string>): string
    decreases |names|
  {
    if names == [] then ""
    else if |names| == 1 then names[0]
    else names[0] + ":" + Join(names[1..])
  }

  lemma {:induction false} JoinSnoc(names: seq<string>, last: string)
    requires names != []
    ensures Join(names + [last]) == Join(names) + ":" + last
    decreases |names|
  {
    if |names| == 1 {
      assert (names + [last])[1..] == [last];
    } else {
      assert (names + [last])[1..] == names[1..] + [last];
      JoinSnoc(names[1..], last);
    }
  }

  /** The paths on the class path, as the set `containsKey` consults. */
  function ClassPathSet(classpaths: Option<seq<string>>): set<string> {
    match classpaths
    case None => {}
    case Some(ps) => set p | p in ps
  }

  /** The names of the artifacts whose path is on the class path, in order. */
  function ClassPathNames(arts: seq<Artifact>, cp: set<string>): seq<string>
    decreases |arts|
  {
    if arts == [] then []
    else
      var last := arts[|arts| - 1];
      ClassPathNames(arts[..|arts| - 1], cp)
        + (if last.uri.path in cp then [ResourceName(last.uri)] else [])
  }

  /** The environment with `names` appended to its class path, or as it was if there are none. */
  function WithClassPathNames(env: map<string, string>, names: seq<string>): map<string, string> {
    if names == [] then env
    else if ClassPathVar in env then env[ClassPathVar := env[ClassPathVar] + ":" + Join(names)]
    else env[ClassPathVar := Join(names)]
  }

  // ---------------------------------------------------------------------------
  // parseDistributedCacheArtifacts
  // ---------------------------------------------------------------------------

  /**
   * The sanity check, in Java's evaluation order: a null array raises a null pointer
   * exception when its length is read, and the message of the length mismatch reads
   * the length of the visibilities, so a null visibilities array turns the mismatch
   * into a null pointer exception too.
   */
  function CheckSpecification(rtype: ResourceType, n: int, timestamps: Option<seq<int>>,
                              sizes: Option<seq<int>>, visibilities: Option<seq<bool>>): (r: Option<CacheError>)
    ensures r.None? <==>
      && timestamps.Some? && sizes.Some? && visibilities.Some?
      && |timestamps.value| == n && |sizes.value| == n && |visibilities.value| == n
    ensures r.Some? && r.value.InvalidSpecification? ==>
      && timestamps.Some? && visibilities.Some?
      && r.value == InvalidSpecification(rtype, n, |timestamps.value|, |visibilities.value|)
  {
    if timestamps.None? then Some(NullPointer)
    else if n != |timestamps.value| then Mismatch(rtype, n, timestamps.value, visibilities)
    else if sizes.None? then Some(NullPointer)
    else if n != |sizes.value| then Mismatch(rtype, n, timestamps.value, visibilities)
    else if visibilities.None? then Some(NullPointer)
    else if n != |visibilities.value| then Mismatch(rtype, n, timestamps.value, visibilities)
    else None
  }

  function Mismatch(rtype: ResourceType, n: int, timestamps: seq<int>, visibilities: Option<seq<bool>>): Option<CacheError> {
    match visibilities
    case None => Some(NullPointer)
    case Some(vs) => Some(InvalidSpecification(rtype, n, |timestamps|, |vs|))
  }

  /** The four parallel arrays as one sequence of artifacts. */
  function Zip(uris: seq<Uri>, timestamps: seq<int>, sizes: seq<int>, visibilities: seq<bool>): (r: seq<Artifact>)
    requires |timestamps| == |uris| && |sizes| == |uris| && |visibilities| == |uris|
    ensures |r| == |uris|
    ensures forall i :: 0 <= i < |r| ==> r[i] == Artifact(uris[i], timestamps[i], sizes[i], visibilities[i])
  {
    seq(|uris|, i requires 0 <= i < |uris| => Artifact(uris[i], timestamps[i], sizes[i], visibilities[i]))
  }

  /** One iteration of the loop: check the name, put the resource, extend the class path. */
  function LocalizeOne(c: Context, rtype: ResourceType, art: Artifact, cp: set<string>): Outcome {
    var name := ResourceName(art.uri);
    if !ValidName(name) then Outcome(c, Some(NameError(name)))
    else
      var env := if art.uri.path in cp then ClassPathWith(c.env, name) else c.env;
      Outcome(Context(c.resources[name := ToResource(rtype, art)], env), None)
  }

  /** The loop over the artifacts: an exception stops it, keeping what was already put. */
  function Localize(c: Context, rtype: ResourceType, arts: seq<Artifact>, cp: set<string>): Outcome
    decreases |arts|
  {
    if arts == [] then Outcome(c, None)
    else
      var prev := Localize(c, rtype, arts[..|arts| - 1], cp);
      if prev.error.Some? then prev
      else LocalizeOne(prev.context, rtype, arts[|arts| - 1], cp)
  }

  /** `parseDistributedCacheArtifacts`: nothing happens without URIs; then the check; then the loop. */
  function ParseArtifacts(c: Context, rtype: ResourceType, uris: Option<seq<Uri>>,
                          timestamps: Option<seq<int>>, sizes: Option<seq<int>>,
                          visibilities: Option<seq<bool>>, classpaths: Option<seq<string>>): Outcome
  {
    match uris
    case None => Outcome(c, None)
    case Some(us) =>
      var check := CheckSpecification(rtype, |us|, timestamps, sizes, visibilities);
      if check.Some? then Outcome(c, check)
      else
        var arts := Zip(us, timestamps.value, sizes.value, visibilities.value);
        Localize(c, rtype, arts, ClassPathSet(classpaths))
  }

  // ---------------------------------------------------------------------------
  // getFileSizes
  // ---------------------------------------------------------------------------

  const MinLong: int := -0x8000_0000_0000_0000
  const MaxLong: int := 0x7FFF_FFFF_FFFF_FFFF

  predicate IsDigit(ch: char) {
    '0' <= ch <= '9'
  }

  predicate AllDigits(s: string) {
    forall i :: 0 <= i < |s| ==> IsDigit(s[i])
  }

  function DigitValue(ch: char): nat
    requires IsDigit(ch)
  {
    (ch as int) - ('0' as int)
  }

  /** The value of a string of decimal digits. */
  function DigitsValue(s: string): nat
    requires AllDigits(s)
    decreases |s|
  {
    if s == [] then 0 else DigitsValue(s[..|s| - 1]) * 10 + DigitValue(s[|s| - 1])
  }

  /**
   * `Long.parseLong`: an optional sign, then at least one decimal digit; the value
   * must fit in a signed 64-bit long. Anything else is a number format exception.
   */
  function ParseLong(s: string): (r: Option<int>)
    ensures r.Some? ==> MinLong <= r.value <= MaxLong
    ensures r.Some? ==> |s| > 0 && (IsDigit(s[0]) || s[0] == '-' || s[0] == '+')
  {
    if s == [] then None
    else
      var signed := s[0] == '-' || s[0] == '+';
      var digits := if signed then s[1..] else s;
      if digits == [] || !AllDigits(digits) then None
      else
        var v: int := if s[0] == '-' then -(DigitsValue(digits) as int) else DigitsValue(digits);
        if MinLong <= v <= MaxLong then Some(v) else None
  }

  /** The decimal digits of a natural number, most significant first. */
  function NatDigits(n: nat): (r: string)
    ensures r != [] && AllDigits(r) && DigitsValue(r) == n
    decreases n
  {
    var d := ['0' + ((n % 10) as char)];
    if n < 10 then d
    else
      var r := NatDigits(n / 10) + d;
      assert r[..|r| - 1] == NatDigits(n / 10);
      r
  }

  /** `Long.toString`, the inverse of `ParseLong` on the longs. */
  function FormatLong(n: int): string {
    if n < 0 then "-" + NatDigits(-n) else NatDigits(n)
  }

  lemma ParseFormatLong(n: int)
    requires MinLong <= n <= MaxLong
    ensures ParseLong(FormatLong(n)) == Some(n)
  {
    var s := FormatLong(n);
    if n < 0 {
      assert s[1..] == NatDigits(-n);
    } else {
      assert IsDigit(s[0]);
    }
  }

  /**
   * The loop of `getFileSizes` over the strings: each parsed in order, the first
   * one that is not a long raising the exception.
   */
  function ParseAll(strs: seq<string>): Result<seq<int>, CacheError>
    decreases |strs|
  {
    if strs == [] then Ok([])
    else
      var init := strs[..|strs| - 1];
      var last := strs[|strs| - 1];
      match ParseAll(init)
      case Err(e) => Err(e)
      case Ok(vs) =>
        match ParseLong(last)
        case None => Err(NumberFormat(last))
        case Some(v) => Ok(vs + [v])
  }

  /**
   * The sizes are parsed exactly when every string is a long: then there is one
   * value per string, in order; else the first string that is not one is reported.
   */
  lemma {:induction false} ParseAllMeaning(strs: seq<string>)
    ensures ParseAll(strs).Ok? <==> forall i :: 0 <= i < |strs| ==> ParseLong(strs[i]).Some?
    ensures ParseAll(strs).Ok? ==> |ParseAll(strs).value| == |strs|
    ensures ParseAll(strs).Ok? ==> forall i :: 0 <= i < |strs| ==> ParseAll(strs).value[i] == ParseLong(strs[i]).value
    ensures ParseAll(strs).Err? ==> exists k ::
      && 0 <= k < |strs| && ParseLong(strs[k]).None?
      && (forall j :: 0 <= j < k ==> ParseLong(strs[j]).Some?)
      && ParseAll(strs).error == NumberFormat(strs[k])
    decreases |strs|
  {
    if strs != [] {
      var init := strs[..|strs| - 1];
      var last := strs[|strs| - 1];
      ParseAllMeaning(init);
      assert forall i :: 0 <= i < |init| ==> init[i] == strs[i];
      var r := ParseAll(init);
      if r.Err? {
        var k :| 0 <= k < |init| && ParseLong(init[k]).None?
                 && (forall j :: 0 <= j < k ==> ParseLong(init[j]).Some?)
                 && r.error == NumberFormat(init[k]);
        assert ParseLong(strs[k]).None?;
      } else if ParseLong(last).None? {
        assert ParseLong(strs[|strs| - 1]).None?;
      }
    }
  }

  /** `getFileSizes`: null for a missing key, else every string parsed. */
  function FileSizes(strs: Option<seq<string>>): Result<Option<seq<int>>, CacheError> {
    match strs
    case None => Ok(None)
    case Some(ss) =>
      match ParseAll(ss)
      case Err(e) => Err(e)
      case Ok(vs) => Ok(Some(vs))
  }

  // ---------------------------------------------------------------------------
  // setupDistributedCache
  // ---------------------------------------------------------------------------

  /** What the configuration gives for the archives or for the files. */
  datatype CacheConfig = CacheConfig(
    uris: Option<seq<Uri>>,
    timestamps: Option<seq<int>>,
    sizes: Option<seq<string>>,
    visibilities: Option<seq<bool>>,
    classpaths: Option<seq<string>>)

  /** The archives' sizes are parsed, the archives placed; then the same for the files. */
  function SetupOne(c: Context, rtype: ResourceType, conf: CacheConfig): Outcome {
    match FileSizes(conf.sizes)
    case Err(e) => Outcome(c, Some(e))
    case Ok(sizes) => ParseArtifacts(c, rtype, conf.uris, conf.timestamps, sizes, conf.visibilities, conf.classpaths)
  }

  function Setup(c: Context, archives: CacheConfig, files: CacheConfig): Outcome {
    var a := SetupOne(c, ARCHIVE, archives);
    if a.error.Some? then a else SetupOne(a.context, FILE, files)
  }

  // ---------------------------------------------------------------------------
  // Properties
  // ---------------------------------------------------------------------------

  /** Once an iteration raises, the later ones do not run. */
  lemma {:induction false} LocalizeFailureSticks(c: Context, rtype: ResourceType, arts: seq<Artifact>, cp: set<string>, k: nat)
    requires k <= |arts| && Localize(c, rtype, arts[..k], cp).error.Some?
    ensures Localize(c, rtype, arts, cp) == Localize(c, rtype, arts[..k], cp)
    decreases |arts|
  {
    if k < |arts| {
      var init := arts[..|arts| - 1];
      assert init[..k] == arts[..k];
      LocalizeFailureSticks(c, rtype, init, cp, k);
    } else {
      assert arts[..k] == arts;
    }
  }

  /** The loop completes exactly when every artifact's name is valid. */
  lemma {:induction false} LocalizeSucceedsIffNamesValid(c: Context, rtype: ResourceType, arts: seq<Artifact>, cp: set<string>)
    ensures Localize(c, rtype, arts, cp).error.None? <==>
      forall i :: 0 <= i < |arts| ==> ValidName(ResourceName(arts[i].uri))
    decreases |arts|
  {
    if arts != [] {
      var init := arts[..|arts| - 1];
      var last := arts[|arts| - 1];
      LocalizeSucceedsIffNamesValid(c, rtype, init, cp);
      assert forall i :: 0 <= i < |init| ==> init[i] == arts[i];
      var prev := Localize(c, rtype, init, cp);
      if prev.error.None? {
        assert Localize(c, rtype, arts, cp) == LocalizeOne(prev.context, rtype, last, cp);
        LocalizeOneSucceedsIffNameValid(prev.context, rtype, last, cp);
      } else {
        assert Localize(c, rtype, arts, cp) == prev;
      }
    }
  }

  /** One iteration completes exactly when the artifact's name is valid. */
  lemma LocalizeOneSucceedsIffNameValid(c: Context, rtype: ResourceType, art: Artifact, cp: set<string>)
    ensures LocalizeOne(c, rtype, art, cp).error.None? <==> ValidName(ResourceName(art.uri))
  {
  }

  /**
   * The loop stops at the first artifact with an invalid name, raising its exception,
   * with the resources and the class path of the artifacts before it already in place.
   */
  lemma StopsAtFirstInvalidName(c: Context, rtype: ResourceType, arts: seq<Artifact>, cp: set<string>, k: nat)
    requires k < |arts| && !ValidName(ResourceName(arts[k].uri))
    requires forall i :: 0 <= i < k ==> ValidName(ResourceName(arts[i].uri))
    ensures Localize(c, rtype, arts[..k], cp).error.None?
    ensures Localize(c, rtype, arts, cp)
            == Outcome(Localize(c, rtype, arts[..k], cp).context, Some(NameError(ResourceName(arts[k].uri))))
  {
    LocalizeSucceedsIffNamesValid(c, rtype, arts[..k], cp);
    assert arts[..k + 1][..k] == arts[..k];
    LocalizeFailureSticks(c, rtype, arts, cp, k + 1);
  }

  /** On completion, the resources are the old ones plus one per artifact name. */
  lemma {:induction false} LocalizeKeys(c: Context, rtype: ResourceType, arts: seq<Artifact>, cp: set<string>)
    requires Localize(c, rtype, arts, cp).error.None?
    ensures Localize(c, rtype, arts, cp).context.resources.Keys
            == c.resources.Keys + (set i | 0 <= i < |arts| :: ResourceName(arts[i].uri))
    decreases |arts|
  {
    if arts != [] {
      var init := arts[..|arts| - 1];
      var last := arts[|arts| - 1];
      LocalizeKeys(c, rtype, init, cp);
      assert forall i :: 0 <= i < |init| ==> init[i] == arts[i];
      assert (set i | 0 <= i < |arts| :: ResourceName(arts[i].uri))
          == (set i | 0 <= i < |init| :: ResourceName(init[i].uri)) + {ResourceName(last.uri)};
    }
  }

  /**
   * On completion, the entry of a name is the resource of the LAST artifact with that
   * name: an earlier one with the same name is overwritten, not reported.
   */
  lemma {:induction false} LastWriterWins(c: Context, rtype: ResourceType, arts: seq<Artifact>, cp: set<string>, i: nat)
    requires Localize(c, rtype, arts, cp).error.None?
    requires i < |arts| && forall j :: i < j < |arts| ==> ResourceName(arts[j].uri) != ResourceName(arts[i].uri)
    ensures var r := Localize(c, rtype, arts, cp).context.resources;
      ResourceName(arts[i].uri) in r && r[ResourceName(arts[i].uri)] == ToResource(rtype, arts[i])
    decreases |arts|
  {
    var init := arts[..|arts| - 1];
    if i < |arts| - 1 {
      assert init[i] == arts[i];
      assert forall j :: i < j < |init| ==> init[j] == arts[j];
      LastWriterWins(c, rtype, init, cp, i);
    }
  }

  /** On completion, an entry no artifact names is unchanged. */
  lemma {:induction false} OtherResourcesKept(c: Context, rtype: ResourceType, arts: seq<Artifact>, cp: set<string>, name: string)
    requires Localize(c, rtype, arts, cp).error.None?
    requires name in c.resources && forall i :: 0 <= i < |arts| ==> ResourceName(arts[i].uri) != name
    ensures var r := Localize(c, rtype, arts, cp).context.resources;
      name in r && r[name] == c.resources[name]
    decreases |arts|
  {
    if arts != [] {
      var init := arts[..|arts| - 1];
      assert forall i :: 0 <= i < |init| ==> init[i] == arts[i];
      OtherResourcesKept(c, rtype, init, cp, name);
    }
  }

  lemma WithClassPathSnoc(env: map<string, string>, names: seq<string>, name: string)
    ensures WithClassPathNames(env, names + [name]) == ClassPathWith(WithClassPathNames(env, names), name)
  {
    if names != [] {
      JoinSnoc(names, name);
      var j := Join(names);
      if ClassPathVar in env {
        var p := env[ClassPathVar];
        assert p + ":" + (j + ":" + name) == (p + ":" + j) + ":" + name;
      }
    } else {
      assert [] + [name] == [name];
    }
  }

  /**
   * On completion, the class path is the old one with the names of the artifacts on
   * the class path appended, ':'-joined, in the order of the artifacts; nothing else
   * in the environment changes.
   */
  lemma {:induction false} LocalizeClassPath(c: Context, rtype: ResourceType, arts: seq<Artifact>, cp: set<string>)
    requires Localize(c, rtype, arts, cp).error.None?
    ensures Localize(c, rtype, arts, cp).context.env == WithClassPathNames(c.env, ClassPathNames(arts, cp))
    decreases |arts|
  {
    if arts != [] {
      var init := arts[..|arts| - 1];
      var last := arts[|arts| - 1];
      assert Localize(c, rtype, init, cp).error.None?;
      LocalizeClassPath(c, rtype, init, cp);
      var names := ClassPathNames(init, cp);
      if last.uri.path in cp {
        assert ClassPathNames(arts, cp) == names + [ResourceName(last.uri)];
        WithClassPathSnoc(c.env, names, ResourceName(last.uri));
      } else {
        assert ClassPathNames(arts, cp) == names + [];
        assert names + [] == names;
      }
    }
  }

  /** Without URIs nothing changes and nothing is raised. */
  lemma NoUrisNoChange(c: Context, rtype: ResourceType, timestamps: Option<seq<int>>, sizes: Option<seq<int>>,
                       visibilities: Option<seq<bool>>, classpaths: Option<seq<string>>)
    ensures ParseArtifacts(c, rtype, None, timestamps, sizes, visibilities, classpaths) == Outcome(c, None)
  {
  }

  /** A missing array or mismatched lengths raise before any resource is put. */
  lemma MismatchChangesNothing(c: Context, rtype: ResourceType, us: seq<Uri>, timestamps: Option<seq<int>>,
                               sizes: Option<seq<int>>, visibilities: Option<seq<bool>>, classpaths: Option<seq<string>>)
    requires !(timestamps.Some? && sizes.Some? && visibilities.Some?
               && |timestamps.value| == |us| && |sizes.value| == |us| && |visibilities.value| == |us|)
    ensures var r := ParseArtifacts(c, rtype, Some(us), timestamps, sizes, visibilities, classpaths);
      r.context == c && r.error.Some? && (r.error.value.NullPointer? || r.error.value.InvalidSpecification?)
  {
  }

  /** A null visibilities array with a length mismatch raises a null pointer exception, not the check's own one. */
  lemma MismatchWithoutVisibilities(rtype: ResourceType, us: seq<Uri>, timestamps: seq<int>, sizes: Option<seq<int>>)
    requires |timestamps| != |us|
    ensures CheckSpecification(rtype, |us|, Some(timestamps), sizes, None) == Some(NullPointer)
  {
  }

  /**
   * When the archives and the files are all placed, a name used by a file is keyed
   * to the last file with that name, whatever the archives held.
   */
  lemma FilesOverrideArchives(c: Context, archives: CacheConfig, files: CacheConfig, us: seq<Uri>,
                              timestamps: seq<int>, sizes: seq<int>, visibilities: seq<bool>, i: nat)
    requires files.uris == Some(us) && files.timestamps == Some(timestamps) && files.visibilities == Some(visibilities)
    requires FileSizes(files.sizes) == Ok(Some(sizes))
    requires |timestamps| == |us| && |sizes| == |us| && |visibilities| == |us|
    requires i < |us| && forall j :: i < j < |us| ==> ResourceName(us[j]) != ResourceName(us[i])
    requires Setup(c, archives, files).error.None?
    ensures var r := Setup(c, archives, files).context.resources;
      ResourceName(us[i]) in r && r[ResourceName(us[i])] == LocalResource(us[i], FILE, VisibilityOf(visibilities[i]), sizes[i], timestamps[i])
  {
    var a := SetupOne(c, ARCHIVE, archives);
    var arts := Zip(us, timestamps, sizes, visibilities);
    LastWriterWins(a.context, FILE, arts, ClassPathSet(files.classpaths), i);
  }

  // ---------------------------------------------------------------------------
  // The methods
  // ---------------------------------------------------------------------------

  /** `addCacheArtifactToClassPath`. */
  method AddCacheArtifactToClassPath(container: ContainerLaunchContext, fileName: string)
    modifies container
    ensures container.env == ClassPathWith(old(container.env), fileName)
    ensures container.resources == old(container.resources)
  {
    var classpath: string;
    if ClassPathVar !in container.env {
      classpath := fileName;
    } else {
      classpath := container.env[ClassPathVar] + ":" + fileName;
    }
    container.env := container.env[ClassPathVar := classpath];
  }

  /** The loop that collects the paths of the class-path entries into a map's key set. */
  method ClassPathKeys(classpaths: Option<seq<string>>) returns (keys: set<string>)
    ensures keys == ClassPathSet(classpaths)
  {
    keys := {};
    if classpaths.Some? {
      var ps := classpaths.value;
      var j := 0;
      while j < |ps|
        invariant 0 <= j <= |ps|
        invariant keys == set p | p in ps[..j]
      {
        assert ps[..j + 1] == ps[..j] + [ps[j]];
        keys := keys + {ps[j]};
        j := j + 1;
      }
      assert ps[..j] == ps;
    }
  }

  /** `parseDistributedCacheArtifacts`: returns the exception it raises, if any. */
  method ParseDistributedCacheArtifacts(container: ContainerLaunchContext, rtype: ResourceType,
                                        uris: Option<seq<Uri>>, timestamps: Option<seq<int>>,
                                        sizes: Option<seq<int>>, visibilities: Option<seq<bool>>,
                                        classpaths: Option<seq<string>>) returns (err: Option<CacheError>)
    modifies container
    ensures Outcome(container.Value(), err)
            == ParseArtifacts(old(container.Value()), rtype, uris, timestamps, sizes, visibilities, classpaths)
  {
    if uris.None? {
      return None;
    }
    var us := uris.value;
    err := CheckSpecification(rtype, |us|, timestamps, sizes, visibilities);
    if err.Some? {
      return;
    }
    var classPaths := ClassPathKeys(classpaths);
    err := LocalizeArtifacts(container, rtype, us, timestamps.value, sizes.value, visibilities.value, classPaths);
  }

  /** The loop of `parseDistributedCacheArtifacts`, over arrays the check found to agree in length. */
  method LocalizeArtifacts(container: ContainerLaunchContext, rtype: ResourceType, us: seq<Uri>,
                           ts: seq<int>, ss: seq<int>, vs: seq<bool>, classPaths: set<string>)
    returns (err: Option<CacheError>)
    requires |ts| == |us| && |ss| == |us| && |vs| == |us|
    modifies container
    ensures Outcome(container.Value(), err) == Localize(old(container.Value()), rtype, Zip(us, ts, ss, vs), classPaths)
  {
    ghost var c0 := container.Value();
    ghost var arts := Zip(us, ts, ss, vs);
    err := None;
    var i := 0;
    while i < |us|
      invariant 0 <= i <= |us|
      invariant Localize(c0, rtype, arts[..i], classPaths) == Outcome(container.Value(), None)
      invariant err.None?
    {
      assert arts[..i + 1][..i] == arts[..i];
      err := PutArtifact(container, rtype, Artifact(us[i], ts[i], ss[i], vs[i]), classPaths);
      if err.Some? {
        LocalizeFailureSticks(c0, rtype, arts, classPaths, i + 1);
        assert arts[..|us|] == arts;
        return;
      }
      i := i + 1;
    }
    assert arts[..|us|] == arts;
  }

  /** One iteration of the loop of `parseDistributedCacheArtifacts`. */
  method PutArtifact(container: ContainerLaunchContext, rtype: ResourceType, art: Artifact, classPaths: set<string>)
    returns (err: Option<CacheError>)
    modifies container
    ensures Outcome(container.Value(), err) == LocalizeOne(old(container.Value()), rtype, art, classPaths)
  {
    var u := art.uri;
    var name := ResourceName(u);
    if name == [] || IsAbsolute(name) {
      return Some(NameError(name));
    }
    container.resources := container.resources[name :=
      LocalResource(u, rtype, VisibilityOf(art.visible), art.size, art.timestamp)];
    if u.path in classPaths {
      AddCacheArtifactToClassPath(container, name);
    }
    return None;
  }

  /** `getFileSizes`: fills an array with the parsed sizes, or raises at the first bad one. */
  method GetFileSizes(strs: Option<seq<string>>) returns (r: Result<Option<seq<int>>, CacheError>)
    ensures r == FileSizes(strs)
  {
    if strs.None? {
      return Ok(None);
    }
    var ss := strs.value;
    var result := new int[|ss|];
    var i := 0;
    while i < |ss|
      invariant 0 <= i <= |ss|
      invariant ParseAll(ss[..i]) == Ok(result[..i])
    {
      assert ss[..i + 1][..i] == ss[..i];
      var v := ParseLong(ss[i]);
      if v.None? {
        ParseAllMeaning(ss[..i]);
        ParseAllMeaning(ss);
        assert forall j :: 0 <= j < i ==> ss[..i][j] == ss[j];
        return Err(NumberFormat(ss[i]));
      }
      result[i] := v.value;
      assert result[..i + 1] == result[..i] + [v.value];
      i := i + 1;
    }
    assert ss[..i] == ss;
    assert result[..i] == result[..];
    return Ok(Some(result[..]));
  }

  /** `setupDistributedCache`: the archives, then the files. */
  method SetupDistributedCache(container: ContainerLaunchContext, archives: CacheConfig, files: CacheConfig)
    returns (err: Option<CacheError>)
    modifies container
    ensures Outcome(container.Value(), err) == Setup(old(container.Value()), archives, files)
  {
    var sizes := GetFileSizes(archives.sizes);
    if sizes.Err? {
      return Some(sizes.error);
    }
    err := ParseDistributedCacheArtifacts(container, ARCHIVE, archives.uris, archives.timestamps,
                                          sizes.value, archives.visibilities, archives.classpaths);
    if err.Some? {
      return;
    }
    sizes := GetFileSizes(files.sizes);
    if sizes.Err? {
      return Some(sizes.error);
    }
    err := ParseDistributedCacheArtifacts(container, FILE, files.uris, files.timestamps,
                                          sizes.value, files.visibilities, files.classpaths);
  }
}
