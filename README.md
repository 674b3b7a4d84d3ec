# configreader, modelled in Dafny

`myconfigreader` locates an INI configuration file and reads values from it
section by section. Its own logic is two pieces of
`src/myconfigreader/config_reader.py`, and both are modelled here:

- **The upward search** (`get_config_path`), in `path_search.dfy`, module
  `PathSearch`. Starting at the working directory, the walk probes each
  directory for a `credentials` sub-directory and returns
  `<dir>/credentials/<config_file_name>` for the first hit. It raises
  `FileNotFoundError` once it reaches a directory that is its own parent.
  A path is a `seq<string>` of components, and the root is `[]`. The
  filesystem is reduced to the set of paths that are existing directories.
  `FirstCredentialsDir` follows the loop step by step. `SearchFindsNearest`
  characterises it on its own terms: the nearest non-root ancestor-or-self
  that has a `credentials` directory, or failure exactly when there is none.
- **The section-cursor store** (`_ConfigReader` and
  `ConfigReader_manipulation`), in `config_store.dfy`, module `ConfigStore`.
  It is a class `ConfigReader` with the two cursor fields
  `currentSectionName` and `section` over a parsed table. The table maps
  each section name to the ordered pairs the INI parser presents for it,
  and it always holds `DEFAULT`. `Open` models the constructor's path
  search and file-existence check. `Valid()` is the store's invariant: the
  cursor names a section of the table and holds that section's view. Every
  operation preserves it.

Exceptions become values: `Result`/`Outcome` with `SearchError`
(`FileNotFoundError`) and `StoreError` (`KeyError`). Termination of the
walk is proved by the loop's `decreases |current|`, since every step moves
to a strictly shorter parent.

Two quirks of the code are kept and proved:
- The working directory seeds the walk whichever branch `caller_path`
  takes. `GetConfigPath`'s contract does not mention `callerPath`.
- The root is never probed. `RootNeverProbed` shows that a `credentials`
  directory directly under `/` does not change the result.

The reset in `get_value` and `items` (config_reader.py:75-76 and 88-89)
is commented as a guard for the case where `set_section` was never
called. The test it makes, `if not self.section`, is broader: it fires on
any empty view. For example, after selecting a section whose view is
empty, the next `get_value` moves the cursor back to `DEFAULT` and looks
the key up there. The model does the same.

## Model

| member | source | states |
|---|---|---|
| `PathSearch.HasCredentialsDir` | src/myconfigreader/config_reader.py:25-26 | the probe holds exactly when some existing directory is a child of `dir` named `credentials` |
| `PathSearch.FirstCredentialsDir` | src/myconfigreader/config_reader.py:24-30 | the walk step by step, stopping before the root; a directory it yields is a non-root ancestor-or-self of the start that passes the probe (fully characterised by `SearchFindsNearest`) |
| `PathSearch.Parent` | src/myconfigreader/config_reader.py:24-28 | a path is its own parent exactly when it is the root; any other path's parent is a proper prefix one component shorter, so each step of the walk moves strictly up |
| `PathSearch.Join` | src/myconfigreader/config_reader.py:25-27 | `dir / name` extends `dir` by exactly the one component `name` |
| `PathSearch.SearchFindsNearest` | src/myconfigreader/config_reader.py:24-30 | the walk fails iff no non-root ancestor-or-self of the start has a `credentials` directory; on success it stops at such a directory, a non-empty prefix of the start, and no nearer directory has one |
| `PathSearch.RootNeverProbed` | src/myconfigreader/config_reader.py:24 | adding or removing `/credentials` never changes the outcome of the walk, because the loop exits before probing the root |
| `PathSearch.RootCredentialsNotFound` | src/myconfigreader/config_reader.py:24-30 | concrete instance: with only `/credentials` present and cwd `/home`, the walk fails |
| `PathSearch.GetConfigPath` | src/myconfigreader/config_reader.py:9-30 | returns `<d>/credentials/<name>` for the directory `d` the walk stops at, and `FileNotFoundError` exactly when the walk finds none; the result does not depend on `callerPath` |
| `ConfigStore.Lookup` | src/myconfigreader/config_reader.py:77-78 | `section[key]` is absent iff no pair of the view has that key; a found value is paired with the key in the view |
| `ConfigStore.LookupFindsListedPair` | src/myconfigreader/config_reader.py:77-90 | in a view with distinct keys, every pair that `items()` lists is exactly what the value lookup returns for its key |
| `ConfigStore.ConfigReader.constructor` | src/myconfigreader/config_reader.py:47-48 | after construction the cursor is `DEFAULT` and its view is the table's `DEFAULT` section |
| `ConfigStore.ConfigReader.SetSection` | src/myconfigreader/config_reader.py:50-57 | an unknown name fails with `KeyError` and leaves both cursor fields unchanged; a known name moves the cursor to it and its view; the table never changes |
| `ConfigStore.ConfigReader.GetSection` | src/myconfigreader/config_reader.py:59-69 | no name gives the current section's view; a known name gives that section; an unknown name fails with `KeyError`; no state changes |
| `ConfigStore.ConfigReader.GetValue` | src/myconfigreader/config_reader.py:71-82 | a non-empty cursor is left unchanged, an empty one is reset to `DEFAULT`; the result is the key's value in the resulting view, or the caller's default when the key is absent; a missing key never raises `KeyError` |
| `ConfigStore.ConfigReader.Items` | src/myconfigreader/config_reader.py:84-90 | same reset as `get_value`; returns exactly the current section's pairs, in order |
| `ConfigStore.Open` | src/myconfigreader/config_reader.py:39-48 | fails with `FileNotFoundError` when the walk finds no `credentials` directory or the resolved file does not exist; otherwise, given the table the parser produced from that file, yields a fresh store holding it with the cursor on `DEFAULT` (parse errors are not modelled) |

## Left out

- Filesystem I/O: `Path.cwd()` is the parameter `cwd`. `exists()` and `is_dir()` on the `credentials` path are membership in the directory set `dirs`. `config_path.exists()` is membership in the set `existing`. Symbolic links and permissions are not modelled.
- The configuration file name is treated as a single path component. `pathlib`'s join rules are not modelled for a name holding separators, an absolute name, `''` or `'.'`. For example, `Path('/a/credentials') / ''` is the `credentials` directory itself, while `Join` appends an empty component.
- Parsing (`self.config.read`, UTF-8 decoding) belongs to the INI parser library, which is not part of this model. `Open` takes the parsed table as the input `parsed`. A parse error that `read` raises after both existence checks have passed is not modelled. The rules by which that library builds a section's view are taken as given, including `DEFAULT` keys appearing in other sections.
- Lookup: keys are matched exactly, so callers pass the key in the parser's stored form. The library lower-cases the key being looked up (`optionxform`) before matching, and the model does not. Values are returned as stored. Interpolation at lookup time is not modelled, so neither is the interpolation error a value such as `ab%1` raises. That error escapes `get_value` and `items`.
- `SectionProxy` views are live. In the model a view is the immutable sequence of pairs, and `config` is a constant. This matches the source as far as this module goes, since it never writes to the table. Callers can still write through the public `config` attribute or through a view that `get_section` returns, and the model does not capture such writes.
- The `print` diagnostic for a missing key (config_reader.py:81) is console output only.
- `ConfigReader.__init__` (config_reader.py:98-101) finds the caller's directory by stack inspection, which is runtime reflection. Its only effect is the `caller_path` argument, which `Open` takes as the parameter `callerPath` and the search ignores.
- Python's default arguments (`'config.ini'`, `'DEFAULT'`, `None`) are not modelled. Callers pass every argument explicitly; an absent default value is `None` of `Option`.
- The three-level class hierarchy (`_ConfigReader`, `ConfigReader_manipulation`, `ConfigReader`) is flattened into one class.
