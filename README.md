# pywebwizard: the Django API settings rewrite

This project models `update_settings` from pywebwizard's Django API generator
and proves what it does to a `settings.py`. The function reads the file as a
list of lines and walks the lines in order, copying each one to a new list.
Fixed blocks are added around a line depending on which anchor prefix it
starts with:

- three dotenv lines go before a `from pathlib import Path` line;
- app entries follow `INSTALLED_APPS = [`;
- middleware entries follow `MIDDLEWARE = [`;
- one middleware entry follows `ROOT_URLCONF = '`.

The REST_FRAMEWORK block (10 lines) and the SIMPLE_JWT block (18 lines) are
appended after every line, whatever the line holds. After a `DATABASES = {`
line, once those 28 lines are out, come a comment line and the connection
block for the chosen database type (sqlite, postgresql or mysql). The type is
compared case-insensitively. An unsupported type raises `ValueError` as soon as
a `DATABASES = {` line is met, and the file is then not written. The four
static-files lines end the output, and the result replaces the file.

The model has four files:

- `text.dfy` (module `Text`): `str.startswith` and `str.lower` on strings.
- `api_setup.dfy` (module `ApiSetup`): the model itself. It holds:
  - the literal lines of the source;
  - the per-line specification function `LineOutput`;
  - the whole-file specification functions `Emitted` and `UpdatedSettings`;
  - the loop method `RewriteSettings`, proved against `UpdatedSettings`;
  - the class `SettingsFile`, which stands for the file on disk.
- `api_setup_proofs.dfy` (module `ApiSetupProofs`): the properties of the
  rewrite, namely:
  - input lines survive in order;
  - where each block lands;
  - the exact output length;
  - when the rewrite fails;
  - what each database variant contains.
- `seq_facts.dfy` (module `SeqFacts`): generic slicing and concatenation
  facts used by the proofs.

Four consequences of how `update_settings` is written, all kept by the model:

- The dotenv appends (api_setup.py:128-131) come before the append of the
  line itself (api_setup.py:133), so the dotenv lines precede their anchor.
- The database test (api_setup.py:183) comes after the 28 configuration
  appends, so the database block is separated from `DATABASES = {` by those
  28 lines.
- The `ValueError` (api_setup.py:208-209) is raised inside the loop, only
  when a `DATABASES = {` line is reached; with no such line every database
  type succeeds.
- The REST_FRAMEWORK and SIMPLE_JWT appends (api_setup.py:151-181) sit
  outside every `if`, so they follow every line; the model keeps this and
  proves it as `UpdatedSettingsConfigAfterEveryLine`.

## Model

| member | source | states |
|---|---|---|
| Text.StartsWithSlice | pywebwizard/generators/django/api_setup.py:128 | the character-by-character prefix test holds exactly when the first \|prefix\| characters of the line equal the prefix, i.e. Python's `startswith` |
| Text.Lower | pywebwizard/generators/django/api_setup.py:185 | the lowered string has no capital letters and the input spells it letter for letter with each letter in either case; characterised for all inputs by Text.LowerEqualsIff |
| Text.LowerEqualsIff | pywebwizard/generators/django/api_setup.py:185 | for every string and every target: the string lowers to the target exactly when the target has no capitals and the string spells it with each letter in either case |
| ApiSetup.ParseDatabase | pywebwizard/generators/django/api_setup.py:185-209 | sqlite, postgresql or mysql is chosen exactly when the lowered type equals that name; any other type is the unsupported-type error carrying the type given |
| ApiSetup.DatabaseBlock | pywebwizard/generators/django/api_setup.py:185-209 | a connection block exists exactly for the supported types; otherwise the error names the given type |
| ApiSetup.LineOutput | pywebwizard/generators/django/api_setup.py:126-209 | one iteration raises exactly when the line starts with `DATABASES = {` and the type is unsupported; on success it emits 29 lines plus the anchor extras, and the input line sits right after what is inserted before it |
| ApiSetup.Emitted | pywebwizard/generators/django/api_setup.py:125-209 | the loop's list after a prefix of the input: the only error is the unsupported-type one, and on success its length is the sum of the per-line counts |
| ApiSetup.UpdatedSettings | pywebwizard/generators/django/api_setup.py:125-215 | the new file content: on success it is the per-line output followed by the trailer, and it always ends with the four static-config lines |
| ApiSetup.RewriteSettings | pywebwizard/generators/django/api_setup.py:125-215 | the imperative loop appending to `new_lines`, which stops at the raise, returns exactly `UpdatedSettings` |
| ApiSetup.AppendLineBlocks | pywebwizard/generators/django/api_setup.py:128-181 | the appends of one iteration before the database test extend the list by exactly the dotenv lines, the line, its list entries and the two configuration blocks, in that order |
| ApiSetup.EmittedStep | pywebwizard/generators/django/api_setup.py:126-209 | one more loop iteration extends the list by that line's output, or turns into its error |
| ApiSetup.EmittedErrorPersists | pywebwizard/generators/django/api_setup.py:208-209 | once some prefix of the input raises, the whole rewrite raises the unsupported-type error: the raise ends the loop |
| ApiSetup.SettingsFile.constructor | pywebwizard/generators/django/api_setup.py:122-123 | the file holds the lines read from it |
| ApiSetup.SettingsFile.UpdateSettings | pywebwizard/generators/django/api_setup.py:120-218 | the file is written exactly when the rewrite succeeds, and then holds the rewritten lines; on a raise the file is unchanged and the error is the unsupported-type error |
| ApiSetupProofs.AnchorsExclusive | pywebwizard/generators/django/api_setup.py:128-183 | no line starts with two of the five anchors |
| ApiSetupProofs.LineStartGrows | pywebwizard/generators/django/api_setup.py:151-181 | each later line's block starts at least 29 lines further on |
| ApiSetupProofs.EmittedGathers | pywebwizard/generators/django/api_setup.py:125-209 | a successful loop output is the concatenation of the per-line blocks in input order |
| ApiSetupProofs.EmittedPrefixOk | pywebwizard/generators/django/api_setup.py:126-209 | if the loop succeeds on all lines, it succeeds on every prefix of them |
| ApiSetupProofs.EmittedOkParts | pywebwizard/generators/django/api_setup.py:126-209 | a successful loop succeeded on all lines but the last, and its output is theirs followed by the last line's block |
| ApiSetupProofs.LineStartGathered | pywebwizard/generators/django/api_setup.py:126-209 | the start index of block `i` is the length of the output of the lines before it |
| ApiSetupProofs.EmittedBlockAt | pywebwizard/generators/django/api_setup.py:126-209 | in a successful loop output, the slice between the starts of blocks `i` and `i+1` is exactly what line `i` emits |
| ApiSetupProofs.LineOutputOkAt | pywebwizard/generators/django/api_setup.py:183-209 | no line of a successful loop raised |
| ApiSetupProofs.UpdatedSettingsBlockAt | pywebwizard/generators/django/api_setup.py:125-215 | block `i` sits at its start in the written file, before the trailer |
| ApiSetupProofs.OutputPiece | pywebwizard/generators/django/api_setup.py:125-215 | any piece of block `i` can be read off the written file at the same offset |
| ApiSetupProofs.LineOutputShape | pywebwizard/generators/django/api_setup.py:128-209 | one line's output is its non-database blocks, followed only for a `DATABASES = {` line by the comment line and the connection block |
| ApiSetupProofs.LineBlocksSizes | pywebwizard/generators/django/api_setup.py:128-181 | the blocks of a line are 3 or 0 dotenv lines, the line, its anchor entries and 28 configuration lines |
| ApiSetupProofs.LineBlocksAt | pywebwizard/generators/django/api_setup.py:128-181 | the written file holds each line's non-database blocks at that line's start |
| ApiSetupProofs.LineAt | pywebwizard/generators/django/api_setup.py:133 | within its blocks, the line itself is copied unchanged |
| ApiSetupProofs.LineCopiedAt | pywebwizard/generators/django/api_setup.py:126-133 | input line `i` is found unchanged at its position in the written file |
| ApiSetupProofs.LinesCopied | pywebwizard/generators/django/api_setup.py:126-133 | every input line is found unchanged at its position |
| ApiSetupProofs.PositionsIncrease | pywebwizard/generators/django/api_setup.py:126 | the positions of the input lines strictly increase with their index |
| ApiSetupProofs.UpdatedSettingsAppendOnly | pywebwizard/generators/django/api_setup.py:126-133 | append-only: the input lines embed into the written file, unchanged and in their original order |
| ApiSetupProofs.UpdatedSettingsDotenvBefore | pywebwizard/generators/django/api_setup.py:128-133 | a `from pathlib import Path` line is copied, immediately preceded by exactly the three dotenv lines |
| ApiSetupProofs.DotenvAt | pywebwizard/generators/django/api_setup.py:128-131 | a pathlib line's blocks open with the three dotenv lines |
| ApiSetupProofs.UpdatedSettingsAnchorEntries | pywebwizard/generators/django/api_setup.py:134-149 | at every occurrence, `INSTALLED_APPS = [` is immediately followed by the 7 app entries, `MIDDLEWARE = [` by the 2 middleware entries and `ROOT_URLCONF = '` by its 1 entry |
| ApiSetupProofs.EntriesAt | pywebwizard/generators/django/api_setup.py:134-149 | within a line's blocks, the list entries come right after the line |
| ApiSetupProofs.AnchorBlockCases | pywebwizard/generators/django/api_setup.py:134-149 | each list anchor gets exactly its own entries and counts |
| ApiSetupProofs.UpdatedSettingsConfigAfterEveryLine | pywebwizard/generators/django/api_setup.py:151-181 | after every input line, whatever its content, and after its list entries, come the 10 REST_FRAMEWORK lines and then the 18 SIMPLE_JWT lines |
| ApiSetupProofs.ConfigAt | pywebwizard/generators/django/api_setup.py:151-181 | within a line's blocks, the two configuration blocks follow the line and its entries |
| ApiSetupProofs.UpdatedSettingsDatabaseBlock | pywebwizard/generators/django/api_setup.py:183-207 | a `DATABASES = {` line is followed, 29 lines later (after the configuration blocks), by the comment line and the connection block of the chosen type |
| ApiSetupProofs.DatabaseLineBlocks | pywebwizard/generators/django/api_setup.py:128-183 | a `DATABASES = {` line matches no other anchor, so its non-database blocks are 29 lines |
| ApiSetupProofs.UpdatedSettingsLength | pywebwizard/generators/django/api_setup.py:128-215 | the exact output length: the per-line counts (29, plus 3 for pathlib, 7 for apps, 2 for middleware, 1 for ROOT_URLCONF, 5 or 9 for DATABASES with sqlite or a server) summed over the input, plus 4 |
| ApiSetupProofs.EmittedLengthMatches | pywebwizard/generators/django/api_setup.py:128-209 | when no line raises, the loop's length equals the written-out per-line counts |
| ApiSetupProofs.LineCountMatches | pywebwizard/generators/django/api_setup.py:128-207 | the per-line count agrees with the appends a line makes, when it does not raise |
| ApiSetupProofs.ExpectedBodyLengthSnoc | pywebwizard/generators/django/api_setup.py:126 | the count of one more line adds that line's count |
| ApiSetupProofs.UpdatedSettingsFailsIff | pywebwizard/generators/django/api_setup.py:183-209 | the rewrite fails if and only if some line starts with `DATABASES = {` and the type is unsupported, with the error naming the type; without such a line every type succeeds |
| ApiSetupProofs.EmittedFailsIff | pywebwizard/generators/django/api_setup.py:183-209 | the loop raises exactly when a `DATABASES = {` line meets an unsupported type |
| ApiSetupProofs.NotSettingKey | pywebwizard/generators/django/api_setup.py:186-189 | a line whose tenth character differs from the key's first does not set that key |
| ApiSetupProofs.SqliteSetsNoHost | pywebwizard/generators/django/api_setup.py:186-189 | the sqlite block sets no HOST and no PORT |
| ApiSetupProofs.DatabaseVariants | pywebwizard/generators/django/api_setup.py:185-207 | sqlite selects the sqlite3 engine with no HOST or PORT; postgresql selects its engine on localhost port 5432; mysql selects its engine on localhost port 3306 |
| ApiSetupProofs.DatabaseChoicesIgnoreCase | pywebwizard/generators/django/api_setup.py:185-209 | the type is matched after lower-casing: "SQLite", "PostgreSQL" and "MySQL" select their blocks and "Oracle" is rejected with its name |
| ApiSetupProofs.DatabaseAnyCase | pywebwizard/generators/django/api_setup.py:185-209 | for every type: sqlite, postgresql or mysql is chosen exactly when the type spells that name in any mix of cases, and only those spellings are supported |

## Left out

- `setup_django_api_project` (pywebwizard/generators/django/api_setup.py:5-117) is not modelled. It runs `pip`, `django-admin`, `manage.py` and `git` as subprocesses, changes directory, writes fixed files and prints; it is external I/O with no logic to verify.
- The file read and write (pywebwizard/generators/django/api_setup.py:122-123, 217-218) are modelled by `ApiSetup.SettingsFile`, whose `lines` field stands for the file's content. Opening errors, partial writes, encodings and newline translation are not modelled: the file is opened in text mode, so `\r\n` and `\r` endings arrive in `lines` as `\n` and every `\n` is written back as the platform's line separator, which changes the line endings on disk of a file that used other ones, although the list of lines is copied unchanged.
- ApiSetup.SettingsFile.UpdateSettings: models the file as the list of lines handed to `writelines` (api_setup.py:218), not as the lines a later `readlines()` would return. `writelines` adds no newlines, so when the file's last line has no trailing newline, the next appended line is written on the same physical line: a final `MIDDLEWARE = [` without a newline becomes `MIDDLEWARE = [    'corsheaders.middleware.CorsMiddleware', # Created By pywizard-cli`. "Copied unchanged" and the block placements hold of that list, not of the re-read file.
- Text.Lower: models Python's `str.lower` on ASCII letters only. For the comparison with "sqlite", "postgresql" and "mysql" this is exact. Those names contain no `k`, and the Kelvin sign is the only non-ASCII character that lowers to a lone ASCII letter.
- `ValueError` is modelled as the `UnsupportedDatabase` error value carrying `db_type`. The message text built by the f-string is not modelled.
- Appends are grouped: each fixed block is appended as one constant of lines, rather than one `append` per line as in the source. The order and the contents are those of the source.
- The other files of the repository (the CLI entry point, the `create` command, the Flask, FastAPI and Django web-project generators, the packaging metadata) are not part of this model. They are prompts, printing and dispatch on a lowered name.
