/** The box-header batch driver: which pin counts a command line asks for,
    and the session state the generation loop updates for each of them (the
    current document name, the documents left open, the license lines and
    the files exported). */
module HeaderBatch {
  import opened Geometry
  import opened HeaderNaming
  import opened HeaderGeometry

  /** Where the pin counts come from: a string handed to the list parser
      (which is not part of this model), or an explicit list. */
  datatype PinSource = Delegated(spec: string) | Listed(pins: seq<int>)

  /** The pin counts to build and whether each document is closed after export. */
  datatype BatchPlan = BatchPlan(source: PinSource, closeDoc: bool)

  function AsciiLower(c: char): (lc: char) {
    if 'A' <= c <= 'Z' then ((c as int) + 32) as char else c
  }

  function Lower(s: string): (r: string)
    ensures |r| == |s|
  {
    seq(|s|, i requires 0 <= i < |s| => AsciiLower(s[i]))
  }

  /** An argument that lower-cases to "all" is exactly a three-letter
      spelling of "all" in any mix of upper and lower case. */
  lemma AllInAnyCase(arg: string)
    ensures Lower(arg) == "all" <==>
            |arg| == 3 && arg[0] in "aA" && arg[1] in "lL" && arg[2] in "lL"
  {
    if |arg| == 3 && arg[0] in "aA" && arg[1] in "lL" && arg[2] in "lL" {
      assert Lower(arg) == [AsciiLower(arg[0]), AsciiLower(arg[1]), AsciiLower(arg[2])];
    }
    if Lower(arg) == "all" {
      assert |arg| == 3;
      var l := Lower(arg);
      assert l[0] == AsciiLower(arg[0]) && l[1] == AsciiLower(arg[1]) && l[2] == AsciiLower(arg[2]);
      LowerTo(arg[0], 'a', 'A');
      LowerTo(arg[1], 'l', 'L');
      LowerTo(arg[2], 'l', 'L');
    }
  }

  /** The only characters that lower-case to a lower-case letter are the
      letter itself and its capital. */
  lemma LowerTo(c: char, lower: char, upper: char)
    requires 'a' <= lower <= 'z' && upper as int == lower as int - 32
    requires AsciiLower(c) == lower
    ensures c == lower || c == upper
  {
    if 'A' <= c <= 'Z' {
      assert (c as int) + 32 == lower as int;
    }
  }

  /** range(2, 41): every supported pin count, ascending. */
  function AllPins(): (pins: seq<int>) {
    seq(39, i requires 0 <= i < 39 => i + 2)
  }

  /** The `__main__` selection: with fewer than three argv entries the list
      "10"; for a third entry equal to "all" in any case, pins 2..40 with
      document closing; otherwise the third entry for the list parser. */
  function SelectPins(argv: seq<string>): (plan: BatchPlan) {
    if |argv| < 3 then BatchPlan(Delegated("10"), false)
    else if Lower(argv[2]) == "all" then BatchPlan(Listed(AllPins()), true)
    else BatchPlan(Delegated(argv[2]), false)
  }

  /** Documents are closed exactly for "all"; "all" yields the 39 pin counts
      2..40 in ascending order; every other request goes to the list parser,
      with "10" when nothing is given. */
  lemma SelectPinsCases(argv: seq<string>)
    ensures var plan := SelectPins(argv);
      && (plan.closeDoc <==> plan.source.Listed?)
      && (plan.closeDoc <==> |argv| >= 3 && Lower(argv[2]) == "all")
      && (|argv| < 3 ==> plan.source == Delegated("10"))
      && (|argv| >= 3 && !plan.closeDoc ==> plan.source == Delegated(argv[2]))
      && (plan.closeDoc ==>
            && |plan.source.pins| == 39
            && (forall i :: 0 <= i < 39 ==> plan.source.pins[i] == i + 2)
            && (forall p :: p in plan.source.pins <==> 2 <= p <= 40))
  {
    var all := AllPins();
    forall p ensures p in all <==> 2 <= p <= 40 {
      if 2 <= p <= 40 {
        assert all[p - 2] == p;
      }
    }
  }

  /** Scale applied to the mesh for the VRML export: millimetres to units
      of 2.54 mm (tenths of an inch). */
  const VrmlScale: real := 1.0 / 2.54

  /** What `MakeHeader` builds for one pin count before anything is written:
      the part name, the name of its document, and its two solids. */
  datatype Part = Part(name: string, docname: string, base: Base, pins: seq<Box>)

  function PartFor(n: int): (part: Part) {
    Part(HeaderName(n), DocName(HeaderName(n)), MakeBase(n), HeaderPins(n))
  }

  /** The parts of a list of pin counts, in order. */
  function PartsFor(ps: seq<int>): (parts: seq<Part>) {
    seq(|ps|, i requires 0 <= i < |ps| => PartFor(ps[i]))
  }

  /** What is written for one part: the STEP file (stamped with the license
      lines), the VRML file (which carries the same lines) at VrmlScale, the
      native document saved under the part name, and the solids in them. */
  datatype Artifact = Artifact(
    stepFile: string,
    vrmlFile: string,
    nativeName: string,
    license: seq<string>,
    vrmlScale: real,
    base: Base,
    pins: seq<Box>)

  /** The files of part p, stamped with `license`. */
  function Stamp(p: Part, license: seq<string>): (art: Artifact) {
    Artifact(p.name + ".step", p.name + ".wrl", p.name, license, VrmlScale, p.base, p.pins)
  }

  /** A snapshot of the generator's global state: the current document
      name, the license list used for stamping, the licensing helper's own
      list (which the license list may alias), the documents open by name,
      the active document ("" when none) and the artifacts written so far. */
  datatype SessionState = SessionState(
    docname: string,
    license: seq<string>,
    internalLicense: seq<string>,
    openDocs: seq<string>,
    activeDoc: string,
    exported: seq<Artifact>)

  /** The license list has a first line to inspect. */
  predicate HasLicenseLine(s: SessionState) {
    |s.license| >= 1
  }

  /** The state after `MakeHeader` has built part p: its document is opened
      and made active; a license list still starting with "" is replaced by
      the helper's list with "" appended (the two lists are then one object);
      and the part's files are written, stamped with the license list now in
      force. */
  function AfterHeader(s: SessionState, p: Part): (t: SessionState)
    requires HasLicenseLine(s)
    ensures HasLicenseLine(t)
  {
    var internal := if s.license[0] == "" then s.internalLicense + [""] else s.internalLicense;
    var license := if s.license[0] == "" then internal else s.license;
    SessionState(p.docname, license, internal, s.openDocs + [p.docname], p.docname, s.exported + [Stamp(p, license)])
  }

  /** The state after one pass of the `__main__` loop: the header is made,
      its document re-activated and, when closing, closed and deactivated. */
  function AfterStep(s: SessionState, p: Part, closeDoc: bool): (t: SessionState)
    requires HasLicenseLine(s)
    ensures HasLicenseLine(t)
  {
    var h := AfterHeader(s, p);
    if closeDoc then h.(openDocs := h.openDocs[..|h.openDocs| - 1], activeDoc := "")
    else h.(activeDoc := h.docname)
  }

  /** The state after the whole loop over `parts`, in order. */
  function AfterRun(s: SessionState, parts: seq<Part>, closeDoc: bool): (t: SessionState)
    requires HasLicenseLine(s)
    ensures HasLicenseLine(t)
    decreases |parts|
  {
    if parts == [] then s
    else AfterRun(AfterStep(s, parts[0], closeDoc), parts[1..], closeDoc)
  }

  /** The generator's global state across a batch, updated in place. */
  class Session {
    var docname: string
    var license: seq<string>
    var internalLicense: seq<string>
    var openDocs: seq<string>
    var activeDoc: string
    var exported: seq<Artifact>

    function State(): (st: SessionState)
      reads this
    {
      SessionState(docname, license, internalLicense, openDocs, activeDoc, exported)
    }

    /** A fresh run: license list [""], no documents, nothing exported. The
        helper's license text is given. */
    constructor (intLicense: seq<string>)
      ensures State() == SessionState("", [""], intLicense, [], "", [])
    {
      docname := "";
      license := [""];
      internalLicense := intLicense;
      openDocs := [];
      activeDoc := "";
      exported := [];
    }

    /** `MakeHeader(n)`: names the part and its document, opens and activates
        the document, builds the two pin rows and the base, initialises the
        license list on first use, and exports STEP, VRML and native files
        under the part name. */
    method MakeHeader(n: int)
      requires HasLicenseLine(State())
      modifies this
      ensures State() == AfterHeader(old(State()), PartFor(n))
    {
      var name := HeaderName(n);
      docname := DocName(name);
      openDocs := openDocs + [docname];
      activeDoc := docname;

      var row := MakePinRow(n);
      var row2 := MakePinRow(n);
      var pins := row + seq(|row2|, i requires 0 <= i < |row2| => Translate(row2[i], 0.0, Pitch, 0.0));
      var base := MakeBase(n);

      if license[0] == "" {
        internalLicense := internalLicense + [""];
        license := internalLicense;
      }
      exported := exported + [Stamp(Part(name, docname, base, pins), license)];
    }

    /** One pass of the `__main__` loop: build the header, re-activate its
        document and, when closing is requested, close it again. */
    method Step(n: int, closeDoc: bool)
      requires HasLicenseLine(State())
      modifies this
      ensures State() == AfterStep(old(State()), PartFor(n), closeDoc)
    {
      MakeHeader(n);
      activeDoc := docname;
      if closeDoc {
        openDocs := openDocs[..|openDocs| - 1];
        activeDoc := "";
      }
    }

    /** The `__main__` loop over the selected pin counts. */
    method Run(pins: seq<int>, closeDoc: bool)
      requires HasLicenseLine(State())
      modifies this
      ensures State() == AfterRun(old(State()), PartsFor(pins), closeDoc)
    {
      ghost var s0 := State();
      ghost var parts := PartsFor(pins);
      for k := 0 to |pins|
        invariant HasLicenseLine(State())
        invariant AfterRun(State(), parts[k..], closeDoc) == AfterRun(s0, parts, closeDoc)
      {
        assert parts[k..][1..] == parts[k + 1..];
        Step(pins[k], closeDoc);
      }
    }
  }

  /** A step appends exactly one artifact, the part's files stamped with the
      license list in force after the step, and replaces the license list
      only when it still starts with "". */
  lemma StepExports(s: SessionState, p: Part, closeDoc: bool)
    requires HasLicenseLine(s)
    ensures var t := AfterStep(s, p, closeDoc);
      && t.exported == s.exported + [Stamp(p, t.license)]
      && t.license == (if s.license[0] == "" then s.internalLicense + [""] else s.license)
      && t.internalLicense == (if s.license[0] == "" then s.internalLicense + [""] else s.internalLicense)
  {
  }

  /** The parts' files, in order, the k-th stamped with ls[k]. */
  function StampAll(parts: seq<Part>, ls: seq<seq<string>>): (arts: seq<Artifact>)
    requires |ls| == |parts|
    ensures |arts| == |parts|
  {
    if parts == [] then [] else [Stamp(parts[0], ls[0])] + StampAll(parts[1..], ls[1..])
  }

  /** Artifact k of the list is part k's files under the part name. */
  lemma {:induction false} StampAllAt(parts: seq<Part>, ls: seq<seq<string>>, k: int)
    requires |ls| == |parts| && 0 <= k < |parts|
    ensures StampAll(parts, ls)[k] == Stamp(parts[k], ls[k])
  {
    if k > 0 {
      StampAllAt(parts[1..], ls[1..], k - 1);
    }
  }

  /** The run appends the files of every part, in order, after those already
      written, each stamped with the license list then in force (returned
      as `stamps`). */
  lemma {:induction false} RunExports(s: SessionState, parts: seq<Part>, closeDoc: bool)
    returns (stamps: seq<seq<string>>)
    requires HasLicenseLine(s)
    ensures |stamps| == |parts|
    ensures AfterRun(s, parts, closeDoc).exported == s.exported + StampAll(parts, stamps)
    ensures forall k :: 0 <= k < |parts| ==> stamps[k] == AfterRun(s, parts[..k + 1], closeDoc).license
    decreases |parts|
  {
    if parts == [] {
      stamps := [];
    } else {
      var t := AfterStep(s, parts[0], closeDoc);
      StepExports(s, parts[0], closeDoc);
      var rest := RunExports(t, parts[1..], closeDoc);
      stamps := [t.license] + rest;
      forall k | 0 <= k < |parts| ensures stamps[k] == AfterRun(s, parts[..k + 1], closeDoc).license {
        assert parts[..k + 1][1..] == parts[1..][..k];
        if k == 0 {
          assert AfterRun(t, parts[1..][..0], closeDoc) == t;
        }
      }
      var first := Stamp(parts[0], t.license);
      assert stamps[1..] == rest;
      assert StampAll(parts, stamps) == [first] + StampAll(parts[1..], rest);
      assert (s.exported + [first]) + StampAll(parts[1..], rest)
             == s.exported + ([first] + StampAll(parts[1..], rest));
    }
  }

  /** The document names of a list of parts. */
  function DocNames(parts: seq<Part>): (ds: seq<string>)
    ensures |ds| == |parts|
  {
    if parts == [] then [] else [parts[0].docname] + DocNames(parts[1..])
  }

  /** One step opens the part's document and, when closing, closes it again. */
  lemma StepDocuments(s: SessionState, p: Part, closeDoc: bool)
    requires HasLicenseLine(s)
    ensures var t := AfterStep(s, p, closeDoc);
      && t.openDocs == (if closeDoc then s.openDocs else s.openDocs + [p.docname])
      && t.docname == p.docname
      && t.activeDoc == (if closeDoc then "" else t.docname)
  {
    var h := AfterHeader(s, p);
    assert h.openDocs[..|h.openDocs| - 1] == s.openDocs;
  }

  /** With closing, the run leaves exactly the documents that were open
      before and no active document; without it, every part's document
      stays open, in order, and the last one is active. Either way the
      current document name is that of the last part built. */
  lemma {:induction false} RunDocuments(s: SessionState, parts: seq<Part>, closeDoc: bool)
    requires HasLicenseLine(s)
    ensures var r := AfterRun(s, parts, closeDoc);
      && (closeDoc ==> r.openDocs == s.openDocs)
      && (!closeDoc ==> r.openDocs == s.openDocs + DocNames(parts))
      && (parts != [] ==> r.docname == parts[|parts| - 1].docname)
      && (parts != [] ==> r.activeDoc == if closeDoc then "" else r.docname)
    decreases |parts|
  {
    if parts != [] {
      var t := AfterStep(s, parts[0], closeDoc);
      StepDocuments(s, parts[0], closeDoc);
      RunDocuments(t, parts[1..], closeDoc);
      if |parts| > 1 {
        assert parts[1..][|parts| - 2] == parts[|parts| - 1];
      }
    }
  }

  /** When the helper's license text starts with a real line, the license
      list is set up by the first header and left alone afterwards, so every
      file of the run is stamped with that text followed by "". */
  lemma RunLicense(s: SessionState, parts: seq<Part>, closeDoc: bool)
    requires HasLicenseLine(s) && s.license[0] == ""
    requires |s.internalLicense| >= 1 && s.internalLicense[0] != ""
    ensures var r := AfterRun(s, parts, closeDoc);
      && (parts != [] ==> r.license == r.internalLicense == s.internalLicense + [""])
      && (parts == [] ==> r.license == s.license)
      && forall i :: |s.exported| <= i < |r.exported| ==> r.exported[i].license == s.internalLicense + [""]
  {
    if parts != [] {
      var t := AfterStep(s, parts[0], closeDoc);
      StepExports(s, parts[0], closeDoc);
      LicenseSettled(t, parts[1..], closeDoc);
      var r := AfterRun(s, parts, closeDoc);
      forall i | |s.exported| <= i < |r.exported|
        ensures r.exported[i].license == s.internalLicense + [""]
      {
        if i < |t.exported| {
          assert i == |s.exported|;
        }
      }
    }
  }

  /** Once the license list starts with a real line it is never replaced,
      and every later file is stamped with it. */
  lemma {:induction false} LicenseSettled(s: SessionState, parts: seq<Part>, closeDoc: bool)
    requires HasLicenseLine(s) && s.license[0] != ""
    ensures var r := AfterRun(s, parts, closeDoc);
      && r.license == s.license && r.internalLicense == s.internalLicense
      && |r.exported| >= |s.exported| && r.exported[..|s.exported|] == s.exported
      && forall i :: |s.exported| <= i < |r.exported| ==> r.exported[i].license == s.license
    decreases |parts|
  {
    if parts != [] {
      var t := AfterStep(s, parts[0], closeDoc);
      StepExports(s, parts[0], closeDoc);
      LicenseSettled(t, parts[1..], closeDoc);
      var r := AfterRun(s, parts, closeDoc);
      assert r.exported[..|s.exported|] == r.exported[..|t.exported|][..|s.exported|];
      forall i | |s.exported| <= i < |r.exported|
        ensures r.exported[i].license == s.license
      {
        if i < |t.exported| {
          assert r.exported[i] == r.exported[..|t.exported|][i] == t.exported[i];
        }
      }
    }
  }

  /** The files of distinct pin counts never share a name, and each part's
      files keep the period of its name while its document name has none. */
  lemma ExportNamesDistinct(a: int, b: int, la: seq<string>, lb: seq<string>)
    requires a != b
    ensures Stamp(PartFor(a), la).stepFile != Stamp(PartFor(b), lb).stepFile
    ensures Stamp(PartFor(a), la).vrmlFile != Stamp(PartFor(b), lb).vrmlFile
    ensures PartFor(a).docname != PartFor(b).docname
    ensures '.' in Stamp(PartFor(a), la).nativeName && '.' !in PartFor(a).docname
  {
    ExtensionKeepsNamesApart(a, b, ".step");
    ExtensionKeepsNamesApart(a, b, ".wrl");
    HeaderDocName(a);
    if PartFor(a).docname == PartFor(b).docname {
      DocNameInjective(a, b);
    }
  }

  /** Appending the same file extension keeps distinct part names distinct. */
  lemma ExtensionKeepsNamesApart(a: int, b: int, ext: string)
    requires a != b
    ensures HeaderName(a) + ext != HeaderName(b) + ext
  {
    var na, nb := HeaderName(a), HeaderName(b);
    if na + ext == nb + ext {
      assert na == (na + ext)[..|na|] == (nb + ext)[..|nb|] == nb;
      HeaderNameInjective(a, b);
    }
  }
}
