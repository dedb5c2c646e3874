# Arista catalogue schema checker, modelled in Dafny

The repository keeps YAML descriptions of Arista switch families. Each
document holds a `Definition`: the family's name, its models and its
lifecycle metadata. Each `Model` holds a list of `Port`s. A small Go linter
checks these documents. It decodes each file strictly. Then it checks that
every port type comes from a fixed allow-list: `1000base-T`, `10Gbase-T`,
`SFP+`, `SFP28`, `QSFP+`, `QSFP28`. It prints one `ok` or `FAIL` status per
file and exits with status 1 when any file failed.

This project models that linter once the YAML library has decoded a
document:

- `catalogue.dfy` (module `Catalogue`) has the decoded records. They keep
  the string, integer, boolean and list fields.
- `aristalint.dfy` (module `AristaLint`) has the rest:
  - the allow-list construction (`ListToMap`, `Inserted`, `PortTypes`);
  - the per-model scan (`VerifyModel`) and the per-document scan (`VerifyFile`);
  - the command-line loop (`Run`).
  Each method is proved against a reference function (`CheckPorts`,
  `CheckModels`, `CheckFile`, `StatusOf`). Lemmas prove the properties of
  those functions.

The results of opening and decoding a file are inputs (`Source`): the file
could not be opened, it could not be decoded, or it decoded to a
`Definition`. Go's map lookup returns `false` for a missing key. The model
states this with `Lookup`. The allow-list is a `map<string, bool>`, as in
the source. The reference definitions instead use membership in the list
`PortTypeList`, and `PortTypesMatchList` shows the two agree.

## Model

| member | source | states |
|---|---|---|
| AristaLint.InsertedIsSet | lint/aristalint.go:67-73 | The map built by inserting a list's elements has exactly those elements as keys, each mapped to true. Looking up any other key gives the zero value false. |
| AristaLint.InsertedIgnoresOrderAndDuplicates | lint/aristalint.go:67-73 | Two lists with the same members give the same map, whatever their order and repetitions. |
| AristaLint.ListToMap | lint/aristalint.go:67-73 | The loop that sets `m[i] = true` for each element, in list order, yields the inserted map. A lookup in it is true exactly for members of the list, and every stored value is true. |
| AristaLint.PortTypesMatchList | lint/aristalint.go:50-58 | Looking a type up in `portTypes` is true exactly when the type is, character for character, one of the six listed interface types. |
| AristaLint.CheckPortsSpec | lint/aristalint.go:120-127 | A model passes exactly when every port type is recognised; an empty port list passes. A failure reports the type of the first unrecognised port in list order. |
| AristaLint.CheckPortsIgnoresAfterOffender | lint/aristalint.go:121-123 | Once the first unrecognised port is found, the ports after it are not examined: replacing them changes nothing, and the verdict names that port's type. |
| AristaLint.CheckPortsReadsOnlyTypes | lint/aristalint.go:120-127 | The model verdict depends only on the sequence of port types. Counts, port notes, the switch chip, the CPU and rack fields and the model notes do not change it. |
| AristaLint.VerifyModel | lint/aristalint.go:120-127 | The early-return scan over the ports agrees with the reference check. It passes iff every port type is in the allow-list, and otherwise returns the first unrecognised port's type. |
| AristaLint.CheckModelsSpec | lint/aristalint.go:110-117 | A decoded document passes exactly when every model passes. Otherwise it reports the first failing model's error, carrying that model's name. |
| AristaLint.CheckModelsIgnoresAfterFailure | lint/aristalint.go:110-114 | Models after the first failing one are not checked: replacing them changes nothing. |
| AristaLint.CheckModelsReadsOnlyShapes | lint/aristalint.go:110-127 | The document verdict depends only on each model's name and port types, in order. |
| AristaLint.CheckFileReadsOnlyShapes | lint/aristalint.go:94-117 | Two decoded documents whose models agree in names and port types get the same verdict, whatever their other fields hold. |
| AristaLint.UnknownPortTypeFailsFile | lint/aristalint.go:110-123 | A document in which model k has a port of unrecognised type fails. The error names the first failing model, which is k or a model before it, and carries that model's error. |
| AristaLint.UnknownPortTypeNamesOwningModel | lint/aristalint.go:110-123 | When every model before k passes and model k has a port of unrecognised type, the document's error names model k. Its cause is the type of model k's first unrecognised port, at or before that port. |
| AristaLint.VerifyFile | lint/aristalint.go:94-117 | A file that cannot be opened or decoded fails with that error. For a decoded document the model loop agrees with the reference check: it passes iff every model passes, and otherwise returns the first failing model's error under its name. |
| AristaLint.Run | lint/aristalint.go:75-92 | One status per file, in argument order, each carrying its file name. A status is FAIL exactly when that file's check failed. The exit code is 1 exactly when some file failed, and 0 otherwise. |

## Left out

- Opening and closing files (lint/aristalint.go:95-99): the outcome arrives as `Source.Unreadable`, carrying the reason.
- YAML decoding, including the strict rejection of unknown fields (lint/aristalint.go:101-108): the library is not part of this model. Its outcome arrives as `Source.Undecodable` or `Source.Decoded`.
- The `time.Time` fields `EndOfSaleDate` and `EndOfSupportDate` and the `float64` fields `TypicalWatts` and `MaxWatts`: no check reads them, and they are dates and floating-point values.
- Flag parsing (lint/aristalint.go:76): `flag.Parse` consumes leading `-` arguments before any file is checked. An undefined flag exits with status 2, and `-h` exits with status 0. `Run` takes only the file arguments left after flag parsing, so its exit code of 0 or 1 covers only that case.
- Only the first YAML document of a file is checked: `Decode` is called once (lint/aristalint.go:105). `Source.Decoded` carries that one `Definition`; any later documents in the same file are not modelled.
- Printing to standard error and `os.Exit`: `Run` takes the files as a sequence and returns the statuses and the exit code. Error messages are datatypes that carry the device name and port type; the exact text formatting is not modelled.
- `switchChips` is declared (as `SwitchChips`) but, as in the source, no check consults it.
- Go's `int` width for `Count`, `RackUnits` and the CPU fields: no check reads them, so they are unbounded `int`s.
