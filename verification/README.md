# dorking_br — a Dafny model of the query builder and the result log

`dorking_br.py` is a small command-line helper that builds Google "dork"
queries from a fixed catalog of search operators (`dorks_db`), prints a
reference table of that catalog, and keeps an in-memory log of synthetic
query results (`ResultadoDork`) that it can list on screen. This project
models the parts of it that compute something:

- the operator catalog `dorks_db` and the rows printed by `mostrar_tabela_dorks`
  (module `Catalog`, `catalog.dfy`);
- the query constructor `construir_dork` (module `Query`, `query.dfy`);
- the demo search `busca_rapida`, which appends one record to the log, and the
  log view `mostrar_resultados` (module `Results`, `results.dfy`);
- two small shared modules: `Optional` (`optional.dfy`: optional arguments and
  Python's truthiness of `str | None`) and `Text` (`text.dfy`: `sep.join(parts)`
  and the slice `s[:n]`).

Modelling choices:

- The catalog is an ordered `seq<Operator>`, because a Python dictionary keeps
  insertion order and the table is printed in that order; the dictionary key is
  the `name` field. `IsKnown(cat, op)` is `op in self.dorks_db`. The query and
  table functions take the catalog as a parameter, and `Catalog.Dorks` is the
  tool's own fifteen-entry catalog.
- The optional `site` and `tipo_arquivo` arguments are `Option<string>`; as in
  Python, `None` and `Some("")` both count as absent (`Optional.Truthy`).
- The printed ✅/❌ service marks are the booleans of `Catalog.TableRow`.
- `mostrar_resultados` is modelled as the value it displays (`Results.View`):
  either "no results" or the total plus the numbered rows. The printing and the
  fixed-width padding are not modelled; the truncation is.
- The clock reading `str(datetime.now())` stored in each record is an input
  (`now`) of `busca_rapida`.
- The "mixes" and "standalone" flags are the catalog's own free text ("sim",
  "não", "não muito", "como intitle"), so they are strings.
- `construir_dork` accepts any keyword, the empty one included; the model has
  no precondition on it.

## Model

| member | source | states |
|---|---|---|
| Text.Join | dorking_br.py:130 | `" ".join(parts)`: no parts give the empty string, and the first part is always a prefix of the joined text |
| Text.JoinSnoc | dorking_br.py:130 | joining one more part appends exactly one separator and that part, leaving the earlier joined text unchanged |
| Text.JoinWords | dorking_br.py:186 | an iterative computation of `" ".join(words)`, used by `QuickSearch`, proved equal to `Join` |
| Text.Take | dorking_br.py:207 | the slice `s[:n]` is a prefix of `s` whose length is the smaller of the length of `s` and `n` |
| Optional.Truthy | dorking_br.py:125-127 | the `if site:` / `if tipo_arquivo:` test: an optional string is false exactly when it is `None` or `""` |
| Catalog.IsKnown | dorking_br.py:120 | `op in self.dorks_db`: true exactly when some catalog entry has `op` as its name |
| Catalog.CatalogShape | dorking_br.py:30-46 | the catalog has 15 entries, no two with the same name, listing only the four services the table has columns for |
| Catalog.CatalogDistinct | dorking_br.py:30-46 | the catalog's keys are pairwise different |
| Catalog.CatalogServices | dorking_br.py:30-46 | every service listed in the catalog is one of web, imagens, grupos, notícias |
| Catalog.CatalogNames | dorking_br.py:30-46 | the catalog's keys, in insertion order, are intitle … msgid |
| Catalog.ExampleOperators | dorking_br.py:30-46 | `intitle` is a catalog key and `unknownop` is not |
| Catalog.RowOf | dorking_br.py:67-73 | one entry's row copies its name, purpose and both flags, and marks with ✅ exactly those of the four table services the entry lists |
| Catalog.TableRows | dorking_br.py:66-73 | one row per catalog entry, in catalog order, copying name, purpose and both flags, with each service mark set iff that service is in the entry's list |
| Catalog.RowMarksServices | dorking_br.py:67-70 | for an entry with only known services, the set of ✅-marked services of its row equals the set of services it lists |
| Catalog.TableFaithful | dorking_br.py:66-73 | for a catalog with distinct keys whose entries list only the four table services, the table names every operator exactly once, in key order, and its marks give back each entry's services |
| Catalog.CatalogTable | dorking_br.py:66-73 | the tool's table has 15 rows with pairwise different operators; its first row is intitle with all four marks, its last msgid with only grupos |
| Query.KeywordClause | dorking_br.py:120-123 | the leading clause ends with the verbatim `"kw"`; for a catalog key it is `op:"kw"` (starts with `op:`, three characters beyond op and kw), otherwise the bare `"kw"` |
| Query.SiteParts | dorking_br.py:125-126 | the `site:` clause list holds one clause, `site:<s>`, when the site is truthy, and none otherwise |
| Query.FileTypeParts | dorking_br.py:127-128 | the `filetype:` clause list holds one clause, `filetype:<t>`, when the file type is truthy, and none otherwise |
| Query.Parts | dorking_br.py:118-128 | the clause list has one to three clauses and opens with the keyword clause |
| Query.Build | dorking_br.py:116-130 | the query always opens with the keyword clause |
| Query.JoinTwoClauses | dorking_br.py:130 | two clauses are joined with exactly one space |
| Query.JoinThreeClauses | dorking_br.py:130 | three clauses are joined with exactly one space between neighbours |
| Query.JoinClauses | dorking_br.py:125-130 | joining the keyword clause with the optional clauses gives the keyword clause, then ` site:<s>` if present, then ` filetype:<t>` if present |
| Query.BuildShape | dorking_br.py:116-130 | every query is the keyword clause, then the site tail, then the file-type tail, in that fixed order, each separated by one space |
| Query.KnownOperatorKept | dorking_br.py:120-121 | for a catalog operator the query starts with `op:"kw"`, and with no options it is exactly `op:"kw"`, whatever the keyword (empty included) |
| Query.UnknownOperatorDropped | dorking_br.py:122-123 | an operator outside the catalog is dropped, never an error: the query starts with `"kw"`, equals `"kw"` without options, and is the same for every unknown operator |
| Query.ClausesOnce | dorking_br.py:125-128 | a `site:` clause follows the keyword clause exactly once iff the site is non-empty, likewise `filetype:`; with both, the site clause comes first |
| Query.EmptyMeansAbsent | dorking_br.py:125-127 | an empty site or file type gives the same query as an omitted one |
| Query.BothOptions | dorking_br.py:118-130 | with both options the query is `first + " site:" + s + " filetype:" + t` |
| Query.ExampleKnown | dorking_br.py:120-121 | `construir_dork("intitle", "admin login")` is `intitle:"admin login"` in any catalog that knows intitle |
| Query.ExampleUnknown | dorking_br.py:122-123 | `construir_dork("unknownop", "secret")` is `"secret"` in any catalog that does not know unknownop |
| Query.CatalogExamples | dorking_br.py:116-130 | the two worked queries above hold for the tool's own catalog |
| Results.DemoResult | dorking_br.py:181-188 | the demo record's query is the space-join of the words; its operator is the first word, a prefix of the query, or `intitle` with an empty query when there are no words; the other fields are the fixed placeholders and the clock reading |
| Results.ShowResults | dorking_br.py:199-207 | an empty log shows "no results"; otherwise the total and as many rows as the smaller of the log's length and 10 numbered from 1, each showing its record's operator in full and title and URL as prefixes cut to at most 60 and 50 characters |
| Results.ShowRow | dorking_br.py:207 | the row printed for a record is numbered one past its position, shows the operator in full, and the title and URL as prefixes cut to 60 and 50 characters |
| Results.ShortFieldsShownWhole | dorking_br.py:207 | a title of at most 60 characters, or a URL of at most 50, is shown unchanged |
| Results.AppendKeepsShownRows | dorking_br.py:189-191 | appending a record to any log, the empty one included, always yields a listing, never changes the rows already shown, and adds a row for it exactly when fewer than ten were shown |
| Results.QuickSearch | dorking_br.py:175-191 | the demo search grows the log by exactly one record, the demo record of its words, leaves earlier records unchanged, and returns the non-empty view of the new log |
| Results.DemoExample | dorking_br.py:181-186 | the words `intitle:admin senha` give operator `intitle:admin` and query `intitle:admin senha`; no words give operator `intitle` |

## Left out

- The `requests.Session` set up in the constructor (dorking_br.py:24-28): it is never used.
- `salvar_resultados` (dorking_br.py:152-173): JSON and CSV file output through library writers and a clock-derived file name; it is file I/O. Its success message reads an attribute that does not exist (`self.results`, line 171), so the surrounding handler reports an error even after a successful write; that path is not modelled either.
- Percent-encoding with `urllib.parse.quote` (dorking_br.py:114, 145, 179) and the printed search URLs: a library call and output.
- The banner (dorking_br.py:48-56) and the example gallery `gerar_exemplos_praticos` (dorking_br.py:77-114): fixed printed text.
- The interactive mode `modo_interativo` (dorking_br.py:132-150), including the `strip().lower()` it applies to the typed operator, and the command-line dispatch in `main` (dorking_br.py:209-246): terminal I/O.
- The fixed-width padding of printed table and result rows (`:<12`, `:<60`, …) and the headers and separators around them: presentation only.
- The clock read `str(datetime.now())` (dorking_br.py:187): the timestamp is an input of the demo search, and its format is not modelled.
