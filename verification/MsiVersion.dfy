/** The Windows Installer version of a release
    (scripts/release-version.ts, scripts/release-msi-build-config.ts). */
module MsiVersion {
  import opened Wrappers
  import opened Decimal

  const MAX_MSI_MAJOR_OR_MINOR := 255
  const MAX_MSI_BUILD := 65535
  const PATCH_BUILD_STRIDE := 256
  const STABLE_CHANNEL := 255
  const MAX_BETA_SEQUENCE := STABLE_CHANNEL - 1

  /** `beta` is the sequence of a pre-release. */
  datatype Release = Release(major: nat, minor: nat, patch: nat, beta: Option<nat>)

  datatype Msi = Msi(major: nat, minor: nat, build: nat)

  function Core(r: Release): string {
    Render(r.major) + "." + Render(r.minor) + "." + Render(r.patch)
  }

  function Text(r: Release): string {
    Core(r) + (if r.beta.Some? then "-beta." + Render(r.beta.value) else "")
  }

  function MsiText(m: Msi): string {
    Render(m.major) + "." + Render(m.minor) + "." + Render(m.build)
  }

  function ReadDotted(s: string): Option<(nat, string)> {
    if s == "" || s[0] != '.' then None else ReadNumber(s[1..])
  }

  /** What may follow `X.Y.Z`: nothing, or `-beta.N` with N from 1. */
  function ReadChannel(s: string): Option<Option<nat>> {
    if s == "" then Some(None)
    else if !("-beta." <= s) then None
    else
      match ReadNumber(s[6..])
      case Some((beta, "")) => if beta == 0 then None else Some(Some(beta))
      case _ => None
  }

  /** `X.Y.Z` or `X.Y.Z-beta.N`, no leading zeros. */
  function Classify(version: string): Option<Release> {
    match ReadNumber(version)
    case None => None
    case Some((major, s1)) =>
      match ReadDotted(s1)
      case None => None
      case Some((minor, s2)) =>
        match ReadDotted(s2)
        case None => None
        case Some((patch, s3)) =>
          match ReadChannel(s3)
          case None => None
          case Some(beta) => Some(Release(major, minor, patch, beta))
  }

  function NumericComponent(parsed: nat, maximum: nat, name: string): Result<nat> {
    if parsed <= maximum then Ok(parsed) else Err(name)
  }

  function MsiOf(r: Release): Result<Msi> {
    var beta := match r.beta
                case None => Ok(STABLE_CHANNEL)
                case Some(n) => NumericComponent(n, MAX_BETA_SEQUENCE, "beta sequence");
    if NumericComponent(r.major, MAX_MSI_MAJOR_OR_MINOR, "major").Err? then Err("major")
    else if NumericComponent(r.minor, MAX_MSI_MAJOR_OR_MINOR, "minor").Err? then Err("minor")
    else if NumericComponent(r.patch, MAX_MSI_MAJOR_OR_MINOR, "patch").Err? then Err("patch")
    else if beta.Err? then Err(beta.code)
    else if beta.value == 0 then Err("beta sequence must be greater than zero")
    else
      var build := r.patch * PATCH_BUILD_STRIDE + beta.value;
      if build > MAX_MSI_BUILD then Err("MSI build component exceeds 65535")
      else Ok(Msi(r.major, r.minor, build))
  }

  /** `releaseMsiProductVersion`. */
  function ProductVersion(version: string): Result<string> {
    match Classify(version)
    case None => Err("version")
    case Some(r) =>
      match MsiOf(r)
      case Err(code) => Err(code)
      case Ok(m) => Ok(MsiText(m))
  }

  // ---------- precedence ----------

  /** Precedence of releases, section 11 of Semantic Versioning 2.0.0: by major, minor and
      patch; a pre-release comes before its release, and `beta.N` before `beta.M` for N < M. */
  predicate Precedes(a: Release, b: Release) {
    || a.major < b.major
    || (a.major == b.major && a.minor < b.minor)
    || (a.major == b.major && a.minor == b.minor && a.patch < b.patch)
    || (a.major == b.major && a.minor == b.minor && a.patch == b.patch
        && a.beta.Some? && (b.beta.None? || a.beta.value < b.beta.value))
  }

  predicate MsiBefore(a: Msi, b: Msi) {
    || a.major < b.major
    || (a.major == b.major && a.minor < b.minor)
    || (a.major == b.major && a.minor == b.minor && a.build < b.build)
  }

  predicate WellFormed(r: Release) {
    r.beta.Some? ==> r.beta.value > 0
  }

  /** What an MSI version can hold. */
  predicate Fits(r: Release) {
    r.major <= 255 && r.minor <= 255 && r.patch <= 255 && (r.beta.Some? ==> r.beta.value <= 254)
  }

  function Suffix(beta: Option<nat>): string {
    if beta.Some? then "-beta." + Render(beta.value) else ""
  }

  lemma DottedReads(n: nat, rest: string)
    requires rest == "" || !IsDigit(rest[0])
    ensures ReadDotted("." + Render(n) + rest) == Some((n, rest))
  {
    hide Render, ReadNumber;
    assert ("." + Render(n) + rest)[1..] == Render(n) + rest;
    ReadNumberReads(n, rest);
  }

  lemma DottedIsRendered(s: string)
    requires ReadDotted(s).Some?
    ensures s == "." + Render(ReadDotted(s).value.0) + ReadDotted(s).value.1
  {
    assert s == "." + s[1..];
    ReadNumberIsRendered(s[1..]);
  }

  lemma ChannelReads(beta: Option<nat>)
    requires beta.Some? ==> beta.value > 0
    ensures ReadChannel(Suffix(beta)) == Some(beta)
  {
    if beta.Some? {
      var s := Suffix(beta);
      assert s[..6] == "-beta.";
      assert s[6..] == Render(beta.value) + "";
      ReadNumberReads(beta.value, "");
    }
  }

  lemma ChannelIsRendered(s: string)
    requires ReadChannel(s).Some?
    ensures s == Suffix(ReadChannel(s).value) && (ReadChannel(s).value.Some? ==> ReadChannel(s).value.value > 0)
  {
    if s != "" {
      ReadNumberIsRendered(s[6..]);
      assert s == "-beta." + s[6..];
    }
  }

  lemma ClassifyReads(r: Release)
    requires WellFormed(r)
    ensures Classify(Text(r)) == Some(r)
  {
    var s3 := Suffix(r.beta);
    var s2 := "." + Render(r.patch) + s3;
    var s1 := "." + Render(r.minor) + s2;
    Assembled(r, Render(r.major) + s1, s1, s2, s3);
    assert s3 == "" || !IsDigit(s3[0]);
    hide Render, Text, Suffix, ReadNumber, ReadDotted, ReadChannel;
    ReadNumberReads(r.major, s1);
    DottedReads(r.minor, s2);
    DottedReads(r.patch, s3);
    ChannelReads(r.beta);
  }

  lemma ClassifiedIsText(version: string)
    requires Classify(version).Some?
    ensures WellFormed(Classify(version).value) && version == Text(Classify(version).value)
  {
    ReadNumberIsRendered(version);
    var (major, s1) := ReadNumber(version).value;
    DottedIsRendered(s1);
    var (minor, s2) := ReadDotted(s1).value;
    DottedIsRendered(s2);
    var (patch, s3) := ReadDotted(s2).value;
    ChannelIsRendered(s3);
    Assembled(Classify(version).value, version, s1, s2, s3);
  }

  lemma Assembled(r: Release, version: string, s1: string, s2: string, s3: string)
    requires version == Render(r.major) + s1 && s1 == "." + Render(r.minor) + s2
    requires s2 == "." + Render(r.patch) + s3 && s3 == Suffix(r.beta)
    ensures version == Text(r)
  {
    assert Text(r) == Core(r) + Suffix(r.beta);
    assert version == Core(r) + s3;
  }

  lemma MsiOfFits(r: Release)
    requires WellFormed(r)
    ensures MsiOf(r).Ok? <==> Fits(r)
    ensures Fits(r) ==> MsiOf(r).value.major <= 255 && MsiOf(r).value.minor <= 255 && MsiOf(r).value.build <= 65535
  {
  }

  lemma MsiOfOrders(a: Release, b: Release)
    requires WellFormed(a) && WellFormed(b) && Fits(a) && Fits(b)
    ensures Precedes(a, b) <==> MsiBefore(MsiOf(a).value, MsiOf(b).value)
    ensures MsiOf(a) == MsiOf(b) ==> a == b
  {
  }

  /** The three numbers of an MSI version text, in their order. */
  function ReadMsi(s: string): Option<Msi> {
    match ReadNumber(s)
    case None => None
    case Some((major, s1)) =>
      match ReadDotted(s1)
      case None => None
      case Some((minor, s2)) =>
        match ReadDotted(s2)
        case Some((build, "")) => Some(Msi(major, minor, build))
        case _ => None
  }

  /** An MSI version text says which version it is. */
  lemma MsiReadsBack(m: Msi)
    ensures ReadMsi(MsiText(m)) == Some(m)
  {
    var s2 := "." + Render(m.build) + "";
    var s1 := "." + Render(m.minor) + s2;
    assert MsiText(m) == Render(m.major) + s1;
    ReadNumberReads(m.major, s1);
    DottedReads(m.minor, s2);
    DottedReads(m.build, "");
  }

  /** Which texts have an MSI version: exactly those of the releases that fit. */
  lemma AcceptedExactly(version: string)
    ensures ProductVersion(version).Ok? <==> exists r :: WellFormed(r) && Fits(r) && version == Text(r)
    ensures ProductVersion(version).Ok? ==>
              var m := MsiOf(Classify(version).value).value;
              && ProductVersion(version).value == MsiText(m)
              && m.major <= 255 && m.minor <= 255 && m.build <= 65535
  {
    if ProductVersion(version).Ok? {
      ClassifiedIsText(version);
      MsiOfFits(Classify(version).value);
    }
    if r :| WellFormed(r) && Fits(r) && version == Text(r) {
      ClassifyReads(r);
      MsiOfFits(r);
    }
  }

  /** Accepted versions keep their order and stay apart: read as MSI versions, the texts are ordered as
      the releases are. */
  lemma UpgradesKeepOrder(a: string, b: string)
    requires ProductVersion(a).Ok? && ProductVersion(b).Ok?
    ensures var ma := ReadMsi(ProductVersion(a).value);
            var mb := ReadMsi(ProductVersion(b).value);
            && ma.Some? && mb.Some?
            && (Precedes(Classify(a).value, Classify(b).value) <==> MsiBefore(ma.value, mb.value))
    ensures ProductVersion(a) == ProductVersion(b) <==> a == b
    ensures a != b ==> Precedes(Classify(a).value, Classify(b).value) != Precedes(Classify(b).value, Classify(a).value)
  {
    var ra, rb := Classify(a).value, Classify(b).value;
    ClassifiedIsText(a);
    ClassifiedIsText(b);
    MsiOfFits(ra);
    MsiOfFits(rb);
    MsiOfOrders(ra, rb);
    MsiOfOrders(rb, ra);
    MsiReadsBack(MsiOf(ra).value);
    MsiReadsBack(MsiOf(rb).value);
  }
}
