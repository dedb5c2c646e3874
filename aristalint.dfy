/** The schema checker for switch-model catalogue entries: the port-type
    allow-list, the per-model and per-document checks, and the aggregation
    of per-file verdicts into an exit status. File opening and YAML decoding
    are abstract inputs (see Source). */
module AristaLint {
  import opened Catalogue

  // ---------------------------------------------------------------------
  // Allow-lists: lists turned into string sets held as maps to true
  // ---------------------------------------------------------------------

  /** Reading a key from a Go map: a missing key reads as the zero value. */
  function Lookup(m: map<string, bool>, k: string): bool {
    if k in m then m[k] else false
  }

  /** The map after setting every element of `list` to true, in list order,
      starting from the empty map. */
  function Inserted(list: seq<string>): map<string, bool> {
    if list == [] then map[] else Inserted(list[..|list| - 1])[list[|list| - 1] := true]
  }

  /** The map built from a list holds exactly the list's elements as keys,
      each mapped to true, so a lookup is true exactly for the members. */
  lemma {:induction false} InsertedIsSet(list: seq<string>)
    ensures forall k :: k in Inserted(list) <==> k in list
    ensures forall k :: k in Inserted(list) ==> Inserted(list)[k]
    ensures forall k :: Lookup(Inserted(list), k) <==> k in list
  {
    if list != [] {
      var init := list[..|list| - 1];
      InsertedIsSet(init);
      assert list == init + [list[|list| - 1]];
      forall k ensures k in list <==> k in init || k == list[|list| - 1] {
        if k in list {
          var i :| 0 <= i < |list| && list[i] == k;
          if i < |list| - 1 { assert init[i] == k; }
        }
      }
    }
  }

  /** Neither the order of the list nor repeated elements change the map. */
  lemma InsertedIgnoresOrderAndDuplicates(a: seq<string>, b: seq<string>)
    requires forall x :: x in a <==> x in b
    ensures Inserted(a) == Inserted(b)
  {
    InsertedIsSet(a);
    InsertedIsSet(b);
    assert Inserted(a).Keys == Inserted(b).Keys;
  }

  /** Builds the set of the elements of `list`, one insertion per element. */
  method ListToMap(list: seq<string>) returns (m: map<string, bool>)
    ensures m == Inserted(list)
    ensures forall k :: Lookup(m, k) <==> k in list
    ensures forall k :: k in m ==> m[k]
  {
    m := map[];
    for i := 0 to |list|
      invariant m == Inserted(list[..i])
    {
      assert list[..i + 1][..i] == list[..i];
      m := m[list[i] := true];
    }
    assert list[..|list|] == list;
    InsertedIsSet(list);
  }

  /** The recognised interface types. */
  const PortTypeList: seq<string> :=
    ["1000base-T", "10Gbase-T", "SFP+", "SFP28", "QSFP+", "QSFP28"]

  const PortTypes: map<string, bool> := Inserted(PortTypeList)

  /** The recognised switch chips; declared but never consulted by any check. */
  const SwitchChipList: seq<string> := ["Trident2", "Trident2+"]

  const SwitchChips: map<string, bool> := Inserted(SwitchChipList)

  /** A port type is recognised when it is, character for character, one of
      the listed interface types. */
  predicate KnownPortType(t: string) {
    t in PortTypeList
  }

  /** Looking a type up in the PortTypes map agrees with list membership. */
  lemma PortTypesMatchList()
    ensures forall t :: Lookup(PortTypes, t) <==> KnownPortType(t)
  {
    InsertedIsSet(PortTypeList);
  }

  // ---------------------------------------------------------------------
  // Verdicts
  // ---------------------------------------------------------------------

  /** The outcome of one check: no error, or the first error found. */
  datatype Outcome<+E> = Pass | Fail(error: E)

  /** The error a model check reports. */
  datatype ModelError = UnknownPortType(portType: string)

  /** The error a file check reports: the file could not be opened, the
      document could not be decoded, or a named device failed its check. */
  datatype FileError =
    | CannotOpen(reason: string)
    | CannotDecode(reason: string)
    | DeviceError(device: string, cause: ModelError)

  // ---------------------------------------------------------------------
  // Model check
  // ---------------------------------------------------------------------

  /** Reference definition of the model check: the first port, in list
      order, whose type is not recognised, or Pass. */
  function CheckPorts(ports: seq<Port>): Outcome<ModelError> {
    if ports == [] then Pass
    else if !KnownPortType(ports[0].portType) then Fail(UnknownPortType(ports[0].portType))
    else CheckPorts(ports[1..])
  }

  function CheckModel(model: Model): Outcome<ModelError> {
    CheckPorts(model.ports)
  }

  /** `i` is the position of the first port with an unrecognised type. */
  predicate FirstUnknownPort(ports: seq<Port>, i: int) {
    0 <= i < |ports| && !KnownPortType(ports[i].portType) &&
    forall j :: 0 <= j < i ==> KnownPortType(ports[j].portType)
  }

  /** The model check passes exactly when every port type is recognised,
      and otherwise reports the type of the first unrecognised port. */
  lemma {:induction false} CheckPortsSpec(ports: seq<Port>)
    ensures CheckPorts(ports) == Pass <==>
      forall i :: 0 <= i < |ports| ==> KnownPortType(ports[i].portType)
    ensures CheckPorts(ports).Fail? ==>
      exists i :: FirstUnknownPort(ports, i) &&
        CheckPorts(ports).error == UnknownPortType(ports[i].portType)
  {
    if ports != [] && KnownPortType(ports[0].portType) {
      var rest := ports[1..];
      CheckPortsSpec(rest);
      assert forall i :: 1 <= i < |ports| ==> ports[i] == rest[i - 1];
      if CheckPorts(rest).Fail? {
        var i :| FirstUnknownPort(rest, i) &&
          CheckPorts(rest).error == UnknownPortType(rest[i].portType);
        assert FirstUnknownPort(ports, i + 1);
      }
    } else if ports != [] {
      assert FirstUnknownPort(ports, 0);
    }
  }

  /** Ports after the first unrecognised one are never examined: replacing
      them by anything leaves the verdict unchanged. */
  lemma {:induction false} CheckPortsIgnoresAfterOffender(ports: seq<Port>, i: int, rest: seq<Port>)
    requires FirstUnknownPort(ports, i)
    ensures CheckPorts(ports[..i + 1] + rest) == CheckPorts(ports)
    ensures CheckPorts(ports) == Fail(UnknownPortType(ports[i].portType))
  {
    if i > 0 {
      assert (ports[..i + 1] + rest)[1..] == ports[1..][..i] + rest;
      assert FirstUnknownPort(ports[1..], i - 1);
      CheckPortsIgnoresAfterOffender(ports[1..], i - 1, rest);
    }
  }

  /** The model check reads only the port types: counts, notes, the switch
      chip, the CPU and rack fields, and the model's notes do not matter. */
  lemma {:induction false} CheckPortsReadsOnlyTypes(a: seq<Port>, b: seq<Port>)
    requires PortTypesOf(a) == PortTypesOf(b)
    ensures CheckPorts(a) == CheckPorts(b)
  {
    assert |a| == |PortTypesOf(a)| == |b|;
    if a != [] {
      assert a[0].portType == PortTypesOf(a)[0] == b[0].portType;
      assert PortTypesOf(a[1..]) == PortTypesOf(a)[1..];
      assert PortTypesOf(b[1..]) == PortTypesOf(b)[1..];
      CheckPortsReadsOnlyTypes(a[1..], b[1..]);
    }
  }

  /** Scans the model's ports and stops at the first unrecognised type. */
  method VerifyModel(model: Model) returns (r: Outcome<ModelError>)
    ensures r == CheckModel(model)
    ensures r == Pass <==>
      forall i :: 0 <= i < |model.ports| ==> KnownPortType(model.ports[i].portType)
    ensures r.Fail? ==>
      exists i :: FirstUnknownPort(model.ports, i) &&
        r.error == UnknownPortType(model.ports[i].portType)
  {
    var ports := model.ports;
    PortTypesMatchList();
    for i := 0 to |ports|
      invariant forall j :: 0 <= j < i ==> KnownPortType(ports[j].portType)
      invariant CheckPorts(ports[i..]) == CheckPorts(ports)
    {
      assert ports[i..][1..] == ports[i + 1..];
      if !Lookup(PortTypes, ports[i].portType) {
        assert FirstUnknownPort(ports, i);
        return Fail(UnknownPortType(ports[i].portType));
      }
    }
    assert ports[|ports|..] == [];
    return Pass;
  }

  // ---------------------------------------------------------------------
  // Document check
  // ---------------------------------------------------------------------

  /** The result of opening and decoding one file; both steps are outside
      the model and arrive here as their outcome. */
  datatype Source =
    | Unreadable(reason: string)
    | Undecodable(reason: string)
    | Decoded(definition: Definition)

  /** Reference definition of the document check: the first model, in
      order, that fails its check, reported under that model's name. */
  function CheckModels(models: seq<Model>): Outcome<FileError> {
    if models == [] then Pass
    else match CheckModel(models[0])
      case Fail(e) => Fail(DeviceError(models[0].name, e))
      case Pass => CheckModels(models[1..])
  }

  function CheckFile(source: Source): Outcome<FileError> {
    match source
    case Unreadable(reason) => Fail(CannotOpen(reason))
    case Undecodable(reason) => Fail(CannotDecode(reason))
    case Decoded(definition) => CheckModels(definition.models)
  }

  /** `i` is the position of the first model that fails its check. */
  predicate FirstFailingModel(models: seq<Model>, i: int) {
    0 <= i < |models| && CheckModel(models[i]).Fail? &&
    forall j :: 0 <= j < i ==> CheckModel(models[j]) == Pass
  }

  /** A decoded document passes exactly when every model passes, and
      otherwise reports the first failing model's error under its name. */
  lemma {:induction false} CheckModelsSpec(models: seq<Model>)
    ensures CheckModels(models) == Pass <==>
      forall i :: 0 <= i < |models| ==> CheckModel(models[i]) == Pass
    ensures CheckModels(models).Fail? ==>
      exists i :: FirstFailingModel(models, i) &&
        CheckModels(models).error == DeviceError(models[i].name, CheckModel(models[i]).error)
  {
    if models != [] && CheckModel(models[0]) == Pass {
      var rest := models[1..];
      CheckModelsSpec(rest);
      assert forall i :: 1 <= i < |models| ==> models[i] == rest[i - 1];
      if CheckModels(rest).Fail? {
        var i :| FirstFailingModel(rest, i) &&
          CheckModels(rest).error == DeviceError(rest[i].name, CheckModel(rest[i]).error);
        assert FirstFailingModel(models, i + 1);
      }
    } else if models != [] {
      assert FirstFailingModel(models, 0);
    }
  }

  /** Models after the first failing one are never checked. */
  lemma {:induction false} CheckModelsIgnoresAfterFailure(models: seq<Model>, i: int, rest: seq<Model>)
    requires FirstFailingModel(models, i)
    ensures CheckModels(models[..i + 1] + rest) == CheckModels(models)
    ensures CheckModels(models) == Fail(DeviceError(models[i].name, CheckModel(models[i]).error))
  {
    if i > 0 {
      assert (models[..i + 1] + rest)[1..] == models[1..][..i] + rest;
      assert FirstFailingModel(models[1..], i - 1);
      CheckModelsIgnoresAfterFailure(models[1..], i - 1, rest);
    }
  }

  /** The document check reads only the models' names and port types. */
  lemma {:induction false} CheckModelsReadsOnlyShapes(a: seq<Model>, b: seq<Model>)
    requires ShapesOf(a) == ShapesOf(b)
    ensures CheckModels(a) == CheckModels(b)
  {
    assert |a| == |ShapesOf(a)| == |b|;
    if a != [] {
      assert ShapeOf(a[0]) == ShapesOf(a)[0] == ShapeOf(b[0]);
      CheckPortsReadsOnlyTypes(a[0].ports, b[0].ports);
      assert ShapesOf(a[1..]) == ShapesOf(a)[1..];
      assert ShapesOf(b[1..]) == ShapesOf(b)[1..];
      CheckModelsReadsOnlyShapes(a[1..], b[1..]);
    }
  }

  /** So two decoded documents whose models agree in names and port types
      get the same verdict, whatever their other fields hold. */
  lemma CheckFileReadsOnlyShapes(d1: Definition, d2: Definition)
    requires ShapesOf(d1.models) == ShapesOf(d2.models)
    ensures CheckFile(Decoded(d1)) == CheckFile(Decoded(d2))
  {
    CheckModelsReadsOnlyShapes(d1.models, d2.models);
  }

  /** A document in which model `k` has an unrecognised port type fails,
      and the error names the first failing model, which is `k` or one
      before it. */
  lemma UnknownPortTypeFailsFile(d: Definition, k: int, j: int)
    requires 0 <= k < |d.models| && 0 <= j < |d.models[k].ports|
    requires !KnownPortType(d.models[k].ports[j].portType)
    ensures CheckFile(Decoded(d)).Fail?
    ensures exists k' ::
      0 <= k' <= k && FirstFailingModel(d.models, k') &&
      CheckFile(Decoded(d)).error == DeviceError(d.models[k'].name, CheckModel(d.models[k']).error)
  {
    CheckPortsSpec(d.models[k].ports);
    assert CheckModel(d.models[k]).Fail?;
    CheckModelsSpec(d.models);
  }

  /** When every model before `k` passes, a bad port in model `k` is
      reported under model `k`'s own name. */
  lemma UnknownPortTypeNamesOwningModel(d: Definition, k: int, j: int)
    requires 0 <= k < |d.models| && 0 <= j < |d.models[k].ports|
    requires !KnownPortType(d.models[k].ports[j].portType)
    requires forall i :: 0 <= i < k ==> CheckModel(d.models[i]) == Pass
    ensures CheckModel(d.models[k]).Fail?
    ensures exists i ::
      0 <= i <= j && FirstUnknownPort(d.models[k].ports, i) &&
      CheckModel(d.models[k]).error == UnknownPortType(d.models[k].ports[i].portType)
    ensures CheckFile(Decoded(d)) == Fail(DeviceError(d.models[k].name, CheckModel(d.models[k]).error))
  {
    CheckPortsSpec(d.models[k].ports);
    assert FirstFailingModel(d.models, k);
    CheckModelsIgnoresAfterFailure(d.models, k, []);
  }

  /** Opens and decodes one file (abstractly) and checks its models in
      order, returning the first failing model's error under its name. */
  method VerifyFile(source: Source) returns (r: Outcome<FileError>)
    ensures r == CheckFile(source)
    ensures source.Unreadable? ==> r == Fail(CannotOpen(source.reason))
    ensures source.Undecodable? ==> r == Fail(CannotDecode(source.reason))
    ensures source.Decoded? ==>
      (r == Pass <==> forall i :: 0 <= i < |source.definition.models| ==>
        CheckModel(source.definition.models[i]) == Pass)
    ensures source.Decoded? && r.Fail? ==>
      exists i :: FirstFailingModel(source.definition.models, i) &&
        r.error == DeviceError(source.definition.models[i].name,
                               CheckModel(source.definition.models[i]).error)
  {
    match source
    case Unreadable(reason) =>
      return Fail(CannotOpen(reason));
    case Undecodable(reason) =>
      return Fail(CannotDecode(reason));
    case Decoded(definition) =>
      var models := definition.models;
      for i := 0 to |models|
        invariant forall j :: 0 <= j < i ==> CheckModel(models[j]) == Pass
        invariant CheckModels(models[i..]) == CheckModels(models)
      {
        assert models[i..][1..] == models[i + 1..];
        var err := VerifyModel(models[i]);
        if err.Fail? {
          assert FirstFailingModel(models, i);
          return Fail(DeviceError(models[i].name, err.error));
        }
      }
      assert models[|models|..] == [];
      return Pass;
  }

  // ---------------------------------------------------------------------
  // Command line: one status per file and the exit code
  // ---------------------------------------------------------------------

  /** One command-line argument: its file name and what reading it gave. */
  datatype FileArg = FileArg(filename: string, source: Source)

  /** The status line reported for one file. */
  datatype Status = Ok(filename: string) | Failed(filename: string, error: FileError)

  function StatusOf(file: FileArg): Status {
    match CheckFile(file.source)
    case Pass => Ok(file.filename)
    case Fail(e) => Failed(file.filename, e)
  }

  /** Checks every file in argument order, reporting one status each, and
      gives exit code 1 when any file failed, 0 otherwise. */
  method Run(files: seq<FileArg>) returns (statuses: seq<Status>, exitCode: int)
    ensures |statuses| == |files|
    ensures forall i :: 0 <= i < |files| ==> statuses[i] == StatusOf(files[i])
    ensures forall i :: 0 <= i < |files| ==>
      statuses[i].filename == files[i].filename &&
      (statuses[i].Failed? <==> CheckFile(files[i].source).Fail?)
    ensures exitCode == 0 || exitCode == 1
    ensures exitCode == 1 <==> exists i :: 0 <= i < |files| && CheckFile(files[i].source).Fail?
    ensures exitCode == 1 <==> exists i :: 0 <= i < |statuses| && statuses[i].Failed?
  {
    var failed := false;
    statuses := [];
    for i := 0 to |files|
      invariant |statuses| == i
      invariant forall j :: 0 <= j < i ==> statuses[j] == StatusOf(files[j])
      invariant failed <==> exists j :: 0 <= j < i && CheckFile(files[j].source).Fail?
    {
      var err := VerifyFile(files[i].source);
      if err.Fail? {
        statuses := statuses + [Failed(files[i].filename, err.error)];
        failed := true;
      } else {
        statuses := statuses + [Ok(files[i].filename)];
      }
    }
    exitCode := if failed then 1 else 0;
  }
}
