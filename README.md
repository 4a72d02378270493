# MOT20 label adapter and dataset registry, modelled in Dafny

This project models the dataset layer of a person and vehicle
re-identification training pipeline. It covers two pieces.

- **The MOT20 adapter** (`datasets/mot20.py`). From a root directory it derives
  three paths: `<root>/MOT20/images`, its `train` subdirectory, and the label
  file `train.txt` inside the images directory. It checks in that order that
  each path exists, and fails on the first missing one before anything is
  parsed. It then turns each line `<relative path> <pid> <camid>` of the label
  file into an image record `(img_path, pid, camid, trackid)`. The path is
  joined onto the images directory and the track id is always 0. A line that
  does not split into exactly three fields, or whose pid or camid is not an
  integer, aborts the whole load. The `train` list holds the records; `query`
  and `gallery` are always empty.
- **The registry** (`datasets/__init__.py`). This is a constant, case-sensitive
  table of seven dataset names. `get_names` returns the names. `init_dataset`
  fails with an unknown-dataset error that carries the name, or calls the
  registered adapter with the caller's arguments unchanged. The MOT20 entry is
  keyed `"mot repairing20"` in the source, and the model keeps that key as
  written, so `"mot20"` is an unknown dataset.

Layout:

- `wrappers.dfy`: `Option`, `Result` and `Outcome`. These stand for Python's
  raised exceptions.
- `paths.dfy`: `os.path.join` for two arguments, as POSIX Python does it. An
  absolute second part replaces the first. Otherwise one `/` goes between the
  parts, unless the first is empty or already ends in `/`. Joining is proved
  associative.
- `tokens.dfy`: `str.split()` and `str.strip()` without arguments, over
  Python's whitespace characters, and `int()` in base 10.
- `mot20.dfy`: the adapter. `ParseLine` handles one line. `ParseLabels` is the
  specification of the parser. The class `Mot20` holds the paths as constants
  and the three splits and their statistics as fields. Its members are
  `CheckBeforeRun`, `ProcessDir` (the parsing loop), `Load` (the body of
  `__init__` after the paths are built) and `Init` (the whole constructor
  call).
- `registry.dfy`: the table as a constant `map`, and the lookup as a function
  that returns a `Result`.

The file system comes in as parameters. Path existence is a predicate
`string -> bool`. The label file is the sequence of lines it reads as.
`get_imagedata_info` belongs to the base dataset class, which is not part of
this model. It is a function-valued constant of the adapter object, and the
model proves only that each split's statistics are computed from that split's
stored list.

The model follows the code as written:

- the label file is `MOT20/images/train.txt`, inside the images directory;
- the first existence check is on `<root>/MOT20/images`;
- negative pid and camid values are accepted, because `int()` accepts them;
- a line with the wrong number of fields is an error, namely the unpacking
  error that Python raises.

## Model

| member | source | states |
|---|---|---|
| `Mot20Adapter.Mot20.constructor` | datasets/mot20.py:5-9 | `dataset_dir` is `join(root, "MOT20/images")`; `train_dir` and `train_label` are `train` and `train.txt` joined onto it |
| `Mot20Adapter.Layout` | datasets/mot20.py:7-9 | the train directory and the label file are `<dataset_dir>/train` and `<dataset_dir>/train.txt`, i.e. `join(root, "MOT20/images/train")` and `join(root, "MOT20/images/train.txt")`; the three paths are pairwise distinct; with the default root `""` the dataset directory is `MOT20/images` |
| `Mot20Adapter.Mot20.CheckBeforeRun` | datasets/mot20.py:29-36 | passes iff all three paths exist; otherwise the error names a missing path whose predecessors in the order dataset dir, train dir, label file all exist |
| `Mot20Adapter.ParseLine` | datasets/mot20.py:42-46 | every record a line yields has track id 0 |
| `Mot20Adapter.ParseLineFields` | datasets/mot20.py:42-46 | a line yields a record iff it has exactly three whitespace-separated fields and the 2nd and 3rd are integer literals; the record is `(join(dataset_dir, f1), int(f2), int(f3), 0)`; a wrong field count (a blank line has 0 fields) is reported before a bad pid, and a bad pid before a bad camid |
| `Mot20Adapter.ParseFormatLine` | datasets/mot20.py:42-46 | a line written as `<path> <pid> <camid>`, with or without its newline, and with a whitespace-free path, parses back to exactly that image with track 0 |
| `Mot20Adapter.ParseLabels` | datasets/mot20.py:39-48 | on success, exactly one record per line, in line order, each being what its line yields |
| `Mot20Adapter.ParseLabelsComplete` | datasets/mot20.py:41-47 | if every line parses, the whole file parses |
| `Mot20Adapter.ParseLabelsFirstError` | datasets/mot20.py:41-45 | a failed parse carries the error of the first line that does not parse; all lines before it parse |
| `Mot20Adapter.ParseLabelsPrefixFailure` | datasets/mot20.py:41-45 | once a prefix of the file fails, the whole file fails with the same error, so no partial list is ever returned |
| `Mot20Adapter.LabelFileRoundTrip` | datasets/mot20.py:41-47 | a label file written from (path, pid, camid) entries parses into one record per entry, in order, with the joined path, the same ids and track 0 |
| `Mot20Adapter.LabelFileRoundTripUnterminated` | datasets/mot20.py:40-47 | the same holds when the file's last line has no newline, as `readlines` returns it for a file that does not end in one |
| `Mot20Adapter.Mot20.ProcessDir` | datasets/mot20.py:38-48 | the append loop over the lines returns exactly `ParseLabels` of them: every record in order, or the first line's error |
| `Mot20Adapter.Mot20.Load` | datasets/mot20.py:11-27 | a missing path is reported whatever the file holds and nothing is parsed; then a parse error is reported; on failure the object is unchanged; on success `train` is the parsed list, `query` and `gallery` are empty, and each split's statistics are those of its stored list |
| `Mot20Adapter.Mot20.Init` | datasets/mot20.py:5-27 | constructing the adapter succeeds iff the three paths under `<root>/MOT20/images` exist and the label file parses; it then yields a fresh object whose paths are built from `root`, whose statistics function is the one given, and which is in the loaded state described for `Load`; otherwise there is no object and the error is the first missing path in check order, or, when all exist, the label file's parse error |
| `Paths.JoinAssociative` | datasets/mot20.py:7-9 | `join(join(a, b), c) == join(a, join(b, c))` for all paths |
| `Paths.JoinRelative` | datasets/mot20.py:43 | joining a relative path keeps the prefix, ends with the relative part, and adds at most one separator between them |
| `Tokens.SplitWords` | datasets/mot20.py:42 | every field of a split is non-empty and free of whitespace |
| `Tokens.SplitBlank` | datasets/mot20.py:42 | a split has no fields exactly when the line is all whitespace |
| `Tokens.SplitOfStrip` | datasets/mot20.py:42 | stripping before splitting does not change the fields |
| `Tokens.SplitIgnoresTrailingSpace` | datasets/mot20.py:41-42 | trailing whitespace, such as the newline each read line keeps, does not change the fields |
| `Tokens.SplitUnsplit` | datasets/mot20.py:42 | splitting words written with single blanks between them gives back the words |
| `Tokens.ParseInt` | datasets/mot20.py:44-45 | `int(token)` succeeds exactly on an optionally signed run of decimal digits, and such a token is a single field |
| `Tokens.ParseIntToString` | datasets/mot20.py:44-45 | `int(str(n)) == n` for every integer `n` (no digit-count limit, see "Left out") |
| `Registry.GetNames` | datasets/__init__.py:11-22 | the names are exactly `market1501`, `dukemtmc`, `msmt17`, `occ_duke`, `veri`, `VehicleID`, `mot repairing20`, seven in all |
| `Registry.KeyOf` | datasets/__init__.py:11-19 | every adapter class has a registered name that maps back to it |
| `Registry.InitDataset` | datasets/__init__.py:24-27 | fails iff the name is not registered, with an unknown-dataset error carrying the name; otherwise calls the adapter registered under that name with the arguments unchanged |
| `Registry.FactoryInjective` | datasets/__init__.py:11-19 | each adapter class appears under exactly one name |
| `Registry.Mot20OnlyUnderRegisteredKey` | datasets/__init__.py:18-26 | MOT20 is reached under `"mot repairing20"` and under no other name; `"mot20"` fails as an unknown dataset |
| `Registry.LookupIsCaseSensitive` | datasets/__init__.py:17-26 | `"VehicleID"` finds the VehicleID adapter; `"vehicleid"` is unknown |

The table is a Dafny `const`, so no operation can change it, and `GetNames`
returns the same set on every call.

## Left out

- Reading the label file (`open`, `readlines`) is not modelled. The lines
  arrive as a parameter, so errors raised while opening or decoding the file
  are not modelled either.
- `os.path.exists` is a predicate parameter. The file system itself is not
  modelled.
- The verbose output and `print_dataset_statistics` are not modelled. They
  only print.
- `get_imagedata_info` lives in the base dataset class, which is not part of
  this model. It is an uninterpreted function parameter, and the meaning of
  its counts is not stated.
- The `verbose` flag and `**kwargs` of the MOT20 constructor are not
  modelled. Neither affects what is stored.
- The other adapters (Market1501, DukeMTMC-reID, MSMT17, Occluded-Duke, VeRi,
  VehicleID) are not part of this model. The registry names them, and a
  successful lookup returns the adapter class and the forwarded arguments
  rather than a constructed object. `make_dataloader` and its label
  remapping are not part of this model either.
- `train.py` is not modelled. It is command-line, configuration and training
  glue around framework code.
- The exception messages are not modelled as text. Errors are datatypes that
  carry the missing path, the field count, the bad token or the unknown name.
- Before `Load` runs, the object's lists are empty and its statistics are
  those of the empty list. In Python these attributes do not exist yet. Only
  a loaded object ever reaches a caller, so this state is never observed.
- `os.path.join` is modelled for two arguments only, which is how the
  adapter calls it.
- Tokens.ParseInt: accepts only an optional `+` or `-` followed by ASCII
  digits. Python's `int()` also accepts underscores between digits and
  non-ASCII decimal digits, and the model rejects those. CPython (3.11 and
  the 3.7.14, 3.8.14, 3.9.14 and 3.10.7 maintenance releases) also raises
  `ValueError` on a decimal string of more than 4300 digits by default; the
  model has no such limit and accepts literals of any length.
- Tokens.ParseIntToString: holds for every integer, whereas CPython's default
  4300-digit limit makes `str(n)` itself raise for larger `n`; such ids do
  not occur in a label file, and the model does not impose the limit.
