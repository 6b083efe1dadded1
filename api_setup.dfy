/**
 * The settings rewrite of the Django API generator (`update_settings`).
 *
 * A `settings.py` is a sequence of lines, each keeping its terminating newline
 * as `readlines()` delivers it. The rewrite walks the lines in order and copies
 * each one to the output, surrounded by fixed blocks chosen by which anchor
 * prefix the line starts with. Two configuration blocks (REST_FRAMEWORK and
 * SIMPLE_JWT) are emitted after EVERY line, whatever it holds, and the
 * database block follows those two blocks, not the `DATABASES = {` line
 * itself. An unsupported database type is an error only once a
 * `DATABASES = {` line is reached.
 */
module ApiSetup {
  import opened Text

  // ---------------------------------------------------------------------------
  // Anchors (the prefixes tested with `startswith`)
  // ---------------------------------------------------------------------------

  const PathlibAnchor: string := "from pathlib import Path"
  const InstalledAppsAnchor: string := "INSTALLED_APPS = ["
  const MiddlewareAnchor: string := "MIDDLEWARE = ["
  const RootUrlconfAnchor: string := "ROOT_URLCONF = '"
  const DatabasesAnchor: string := "DATABASES = {"

  // ---------------------------------------------------------------------------
  // The fixed blocks, line by line
  // ---------------------------------------------------------------------------

  /** Inserted just BEFORE a `from pathlib import Path` line. */
  const DotenvLines: seq<string> := [
    "from dotenv import load_dotenv\n",
    "import os\n",
    "load_dotenv()\n"
  ]

  /** Inserted after an `INSTALLED_APPS = [` line. */
  const InstalledAppLines: seq<string> := [
    "    'main', # Created By pywizard-cli\n",
    "    'rest_framework', # Created By pywizard-cli\n",
    "    'corsheaders', # Created By pywizard-cli\n",
    "    'rest_framework_simplejwt', # Created By pywizard-cli\n",
    "    'allauth', # Created By pywizard-cli\n",
    "    'allauth.account', # Created By pywizard-cli\n",
    "    'allauth.socialaccount', # Created By pywizard-cli\n"
  ]

  /** Inserted after a `MIDDLEWARE = [` line. */
  const MiddlewareLines: seq<string> := [
    "    'corsheaders.middleware.CorsMiddleware', # Created By pywizard-cli\n",
    "    'django.middleware.common.CommonMiddleware', # Created By pywizard-cli\n"
  ]

  /** Inserted after a `ROOT_URLCONF = '` line. */
  const RootUrlconfLines: seq<string> := [
    "    'corsheaders.middleware.CorsPostCsrfMiddleware', # Created By pywizard-cli\n"
  ]

  /** Emitted after every input line. */
  const RestFrameworkLines: seq<string> := [
    "\n",
    "# Django REST Framework Configuration\n",
    "REST_FRAMEWORK = {\n",
    "    'DEFAULT_AUTHENTICATION_CLASSES': [\n",
    "        'rest_framework_simplejwt.authentication.JWTAuthentication',\n",
    "    ],\n",
    "    'DEFAULT_PERMISSION_CLASSES': [\n",
    "        'rest_framework.permissions.IsAuthenticated',\n",
    "    ],\n",
    "}\n"
  ]

  /** Emitted after every input line, right after the REST_FRAMEWORK block. */
  const SimpleJwtLines: seq<string> := [
    "\n",
    "# Simple JWT Configuration\n",
    "from datetime import timedelta\n",
    "SIMPLE_JWT = {\n",
    "    'ACCESS_TOKEN_LIFETIME': timedelta(minutes=5),\n",
    "    'REFRESH_TOKEN_LIFETIME': timedelta(days=1),\n",
    "    'ROTATE_REFRESH_TOKENS': False,\n",
    "    'BLACKLIST_AFTER_ROTATION': True,\n",
    "    'ALGORITHM': 'HS256',\n",
    "    'SIGNING_KEY': SECRET_KEY,\n",
    "    'VERIFYING_KEY': None,\n",
    "    'AUTH_HEADER_TYPES': ('Bearer',),\n",
    "    'USER_ID_FIELD': 'id',\n",
    "    'USER_ID_CLAIM': 'user_id',\n",
    "    'AUTH_TOKEN_CLASSES': ('rest_framework_simplejwt.tokens.AccessToken',),\n",
    "    'TOKEN_TYPE_CLAIM': 'token_type',\n",
    "    'JTI_CLAIM': 'jti',\n",
    "}\n"
  ]

  /** Precedes the database variant block. */
  const DatabaseCommentLine: string := "    # Configured by pywizard-cli, modify as youwant{\n"

  const SqliteLines: seq<string> := [
    "    'default': {\n",
    "        'ENGINE': 'django.db.backends.sqlite3',\n",
    "        'NAME': BASE_DIR / 'db.sqlite3',\n",
    "    },\n"
  ]

  const PostgresqlLines: seq<string> := [
    "    'default': {\n",
    "        'ENGINE': 'django.db.backends.postgresql',\n",
    "        'NAME': 'your_db_name',\n",
    "        'USER': 'your_db_user',\n",
    "        'PASSWORD': 'your_db_password',\n",
    "        'HOST': 'localhost',\n",
    "        'PORT': '5432',\n",
    "    },\n"
  ]

  const MysqlLines: seq<string> := [
    "    'default': {\n",
    "        'ENGINE': 'django.db.backends.mysql',\n",
    "        'NAME': 'your_db_name',\n",
    "        'USER': 'your_db_user',\n",
    "        'PASSWORD': 'your_db_password',\n",
    "        'HOST': 'localhost',\n",
    "        'PORT': '3306',\n",
    "    },\n"
  ]

  /** Appended once, after the last input line. */
  const StaticLines: seq<string> := [
    "\n",
    "# Static Config\n",
    "STATIC_URL = '/static/'\n",
    "STATICFILES_DIRS = [BASE_DIR / 'static']\n"
  ]

  // ---------------------------------------------------------------------------
  // Results
  // ---------------------------------------------------------------------------

  /** The `ValueError` raised for a database type outside sqlite/postgresql/mysql. */
  datatype Error = UnsupportedDatabase(dbType: string)

  datatype Result<T> = Ok(value: T) | Err(error: Error)

  /** What `update_settings` does to the file: it is rewritten, or the call raises. */
  datatype Outcome = Written | Raised(error: Error)

  // ---------------------------------------------------------------------------
  // Database variant selection
  // ---------------------------------------------------------------------------

  /** The three database types the generator knows. */
  datatype DatabaseKind = Sqlite | Postgresql | Mysql

  /** `db_type.lower()` compared with the three names, in the order the code tries them. */
  function ParseDatabase(dbType: string): (r: Result<DatabaseKind>)
    ensures r == Ok(Sqlite) <==> Lower(dbType) == "sqlite"
    ensures r == Ok(Postgresql) <==> Lower(dbType) == "postgresql"
    ensures r == Ok(Mysql) <==> Lower(dbType) == "mysql"
    ensures r.Err? ==> r.error == UnsupportedDatabase(dbType)
  {
    var kind := Lower(dbType);
    if kind == "sqlite" then Ok(Sqlite)
    else if kind == "postgresql" then Ok(Postgresql)
    else if kind == "mysql" then Ok(Mysql)
    else Err(UnsupportedDatabase(dbType))
  }

  /** The supported database types, compared after lower-casing. */
  predicate IsSupportedDatabase(dbType: string)
  {
    ParseDatabase(dbType).Ok?
  }

  /** The connection block of each kind. */
  function VariantLines(kind: DatabaseKind): seq<string>
  {
    match kind
    case Sqlite => SqliteLines
    case Postgresql => PostgresqlLines
    case Mysql => MysqlLines
  }

  /** The connection block for `dbType`, or the error for an unsupported one. */
  function DatabaseBlock(dbType: string): (r: Result<seq<string>>)
    ensures r.Ok? <==> IsSupportedDatabase(dbType)
    ensures r.Err? ==> r.error == UnsupportedDatabase(dbType)
  {
    match ParseDatabase(dbType)
    case Ok(kind) => Ok(VariantLines(kind))
    case Err(e) => Err(e)
  }

  // ---------------------------------------------------------------------------
  // What one input line becomes
  // ---------------------------------------------------------------------------

  /** The lines emitted before `line` itself. */
  function Before(line: string): seq<string>
  {
    if StartsWith(line, PathlibAnchor) then DotenvLines else []
  }

  /** The lines that the three list anchors add directly after `line`, in the order `update_settings` tests them. */
  function AnchorBlock(line: string): seq<string>
  {
    (if StartsWith(line, InstalledAppsAnchor) then InstalledAppLines else [])
    + (if StartsWith(line, MiddlewareAnchor) then MiddlewareLines else [])
    + (if StartsWith(line, RootUrlconfAnchor) then RootUrlconfLines else [])
  }

  /**
   * The lines emitted for `line` apart from any database block, in order:
   * the dotenv lines, the line, its list entries, REST_FRAMEWORK, SIMPLE_JWT.
   */
  function LineBlocks(line: string): seq<string>
  {
    Before(line) + [line] + AnchorBlock(line) + RestFrameworkLines + SimpleJwtLines
  }

  /** Number of lines the anchors add to one line, counted from the appends `update_settings` makes. */
  function ExtraLines(line: string, dbType: string): nat
  {
    (if StartsWith(line, PathlibAnchor) then 3 else 0)
    + AnchorEntryCount(line)
    + (if StartsWith(line, DatabasesAnchor) then 1 + VariantSize(dbType) else 0)
  }

  /** Number of list entries the three list anchors add: 7 apps, 2 middlewares, 1 URL-conf entry. */
  function AnchorEntryCount(line: string): nat
  {
    (if StartsWith(line, InstalledAppsAnchor) then 7 else 0)
    + (if StartsWith(line, MiddlewareAnchor) then 2 else 0)
    + (if StartsWith(line, RootUrlconfAnchor) then 1 else 0)
  }

  /** Number of lines in the connection block for a supported type: 4 for sqlite, 8 for the servers. */
  function VariantSize(dbType: string): nat
  {
    match ParseDatabase(dbType)
    case Ok(Sqlite) => 4
    case Ok(_) => 8
    case Err(_) => 0
  }

  /** One iteration of the loop: the lines emitted for `line`, or the error it raises. */
  function LineOutput(line: string, dbType: string): (r: Result<seq<string>>)
    ensures r.Err? <==> StartsWith(line, DatabasesAnchor) && !IsSupportedDatabase(dbType)
    ensures r.Err? ==> r.error == UnsupportedDatabase(dbType)
    ensures r.Ok? ==> |r.value| == 1 + 28 + ExtraLines(line, dbType)
    ensures r.Ok? ==> r.value[|Before(line)|] == line
  {
    var emitted := LineBlocks(line);
    if StartsWith(line, DatabasesAnchor) then
      match DatabaseBlock(dbType)
      case Ok(block) => Ok(emitted + [DatabaseCommentLine] + block)
      case Err(e) => Err(e)
    else
      Ok(emitted)
  }

  /** Total number of lines emitted for `lines`, from the per-line counts. */
  function EmittedLength(lines: seq<string>, dbType: string): nat
  {
    if |lines| == 0 then 0
    else EmittedLength(lines[..|lines| - 1], dbType) + 1 + 28 + ExtraLines(lines[|lines| - 1], dbType)
  }

  /** The contents of `new_lines` after the loop has gone over `lines`, or the error it raised. */
  function Emitted(lines: seq<string>, dbType: string): (r: Result<seq<string>>)
    ensures r.Err? ==> r.error == UnsupportedDatabase(dbType)
    ensures r.Ok? ==> |r.value| == EmittedLength(lines, dbType)
  {
    if |lines| == 0 then Ok([])
    else
      match Emitted(lines[..|lines| - 1], dbType)
      case Err(e) => Err(e)
      case Ok(prefix) =>
        match LineOutput(lines[|lines| - 1], dbType)
        case Err(e) => Err(e)
        case Ok(block) => Ok(prefix + block)
  }

  /** The whole rewrite: the emitted lines followed by the static-files trailer. */
  function UpdatedSettings(lines: seq<string>, dbType: string): (r: Result<seq<string>>)
    ensures r.Err? ==> r.error == UnsupportedDatabase(dbType)
    ensures r.Ok? ==> |r.value| == EmittedLength(lines, dbType) + |StaticLines|
    ensures r.Ok? ==> r.value[|r.value| - |StaticLines|..] == StaticLines
  {
    match Emitted(lines, dbType)
    case Err(e) => Err(e)
    case Ok(body) => Ok(body + StaticLines)
  }

  // ---------------------------------------------------------------------------
  // The loop
  // ---------------------------------------------------------------------------

  /**
   * The loop of `update_settings`: appends to `newLines` line by line and
   * stops with the error at the first `DATABASES = {` line when the type is
   * unsupported.
   */
  method RewriteSettings(lines: seq<string>, dbType: string) returns (r: Result<seq<string>>)
    ensures r == UpdatedSettings(lines, dbType)
  {
    var newLines: seq<string> := [];
    var i := 0;
    while i < |lines|
      invariant 0 <= i <= |lines|
      invariant Emitted(lines[..i], dbType) == Ok(newLines)
    {
      var line := lines[i];
      ghost var start := newLines;
      newLines := AppendLineBlocks(newLines, line);
      ghost var emitted := LineBlocks(line);
      if StartsWith(line, DatabasesAnchor) {
        ghost var atComment := newLines;
        newLines := newLines + [DatabaseCommentLine];
        ghost var variant: seq<string>;
        var kind := Lower(dbType);
        if kind == "sqlite" {
          newLines := newLines + SqliteLines;
          variant := SqliteLines;
        } else if kind == "postgresql" {
          newLines := newLines + PostgresqlLines;
          variant := PostgresqlLines;
        } else if kind == "mysql" {
          newLines := newLines + MysqlLines;
          variant := MysqlLines;
        } else {
          EmittedStep(lines, dbType, i, start);
          EmittedErrorPersists(lines, dbType, i + 1);
          return Err(UnsupportedDatabase(dbType));
        }
        assert newLines == atComment + [DatabaseCommentLine] + variant;
        assert DatabaseBlock(dbType) == Ok(variant);
        AppendDatabaseChain(start, emitted, DatabaseCommentLine, variant);
        assert LineOutput(line, dbType) == Ok(emitted + [DatabaseCommentLine] + variant);
      } else {
        assert LineOutput(line, dbType) == Ok(emitted);
      }
      assert Ok(newLines) == Ok(start + LineOutput(line, dbType).value);
      EmittedStep(lines, dbType, i, start);
      i := i + 1;
    }
    assert lines[..|lines|] == lines;
    newLines := newLines + StaticLines;
    r := Ok(newLines);
  }

  /**
   * One iteration of `update_settings` up to its database test: the dotenv lines before a `from pathlib`
   * line, the line itself, the list entries its anchor adds, and the
   * REST_FRAMEWORK and SIMPLE_JWT blocks that follow every line.
   */
  method AppendLineBlocks(newLines: seq<string>, line: string) returns (extended: seq<string>)
    ensures extended == newLines + LineBlocks(line)
  {
    extended := newLines;
    if StartsWith(line, PathlibAnchor) {
      extended := extended + DotenvLines;
    }
    assert extended == newLines + Before(line);
    extended := extended + [line];
    ghost var atApps := extended;
    if StartsWith(line, InstalledAppsAnchor) {
      extended := extended + InstalledAppLines;
    }
    assert extended == atApps + (if StartsWith(line, InstalledAppsAnchor) then InstalledAppLines else []);
    ghost var atMiddleware := extended;
    if StartsWith(line, MiddlewareAnchor) {
      extended := extended + MiddlewareLines;
    }
    assert extended == atMiddleware + (if StartsWith(line, MiddlewareAnchor) then MiddlewareLines else []);
    ghost var atRoot := extended;
    if StartsWith(line, RootUrlconfAnchor) {
      extended := extended + RootUrlconfLines;
    }
    assert extended == atRoot + (if StartsWith(line, RootUrlconfAnchor) then RootUrlconfLines else []);
    extended := extended + RestFrameworkLines;
    extended := extended + SimpleJwtLines;
    AppendChain(newLines, Before(line), line,
      (if StartsWith(line, InstalledAppsAnchor) then InstalledAppLines else []),
      (if StartsWith(line, MiddlewareAnchor) then MiddlewareLines else []),
      (if StartsWith(line, RootUrlconfAnchor) then RootUrlconfLines else []),
      RestFrameworkLines, SimpleJwtLines);
    assert extended == newLines + LineBlocks(line);
  }

  /** Regrouping of the appends one loop iteration makes before the database block. */
  lemma AppendChain<T>(start: seq<T>, before: seq<T>, line: T, a: seq<T>, b: seq<T>, c: seq<T>, d: seq<T>, e: seq<T>)
    ensures start + before + [line] + a + b + c + d + e == start + (before + [line] + (a + b + c) + d + e)
  {
  }

  /** Regrouping of the appends that add the database block. */
  lemma AppendDatabaseChain<T>(start: seq<T>, emitted: seq<T>, comment: T, variant: seq<T>)
    ensures start + emitted + [comment] + variant == start + (emitted + [comment] + variant)
  {
  }

  /** One more line: the loop state after line `i` extends the state before it by that line's output. */
  lemma EmittedStep(lines: seq<string>, dbType: string, i: nat, prefix: seq<string>)
    requires i < |lines| && Emitted(lines[..i], dbType) == Ok(prefix)
    ensures Emitted(lines[..i + 1], dbType)
            == match LineOutput(lines[i], dbType)
               case Ok(block) => Ok(prefix + block)
               case Err(e) => Err(e)
  {
    assert lines[..i + 1][..i] == lines[..i];
  }

  /** Once some prefix of the input raises, the whole input raises. */
  lemma {:induction false} EmittedErrorPersists(lines: seq<string>, dbType: string, k: nat)
    requires k <= |lines|
    requires Emitted(lines[..k], dbType).Err?
    ensures Emitted(lines, dbType) == Err(UnsupportedDatabase(dbType))
  {
    if k < |lines| {
      var init := lines[..|lines| - 1];
      assert init[..k] == lines[..k];
      EmittedErrorPersists(init, dbType, k);
    } else {
      assert lines[..k] == lines;
    }
  }

  // ---------------------------------------------------------------------------
  // The file on disk
  // ---------------------------------------------------------------------------

  /**
   * `settings.py`, as the list of lines `readlines()` returns and, after a
   * rewrite, the list handed to `writelines`, which joins them without adding
   * newlines.
   */
  class SettingsFile {
    var lines: seq<string>

    constructor (initial: seq<string>)
      ensures lines == initial
    {
      lines := initial;
    }

    /**
     * `update_settings(settings_path, db_type)`: reads the file, rewrites it,
     * and writes it back only when the rewrite did not raise.
     */
    method UpdateSettings(dbType: string) returns (outcome: Outcome)
      modifies this
      ensures outcome.Written? <==> UpdatedSettings(old(lines), dbType).Ok?
      ensures outcome.Written? ==> lines == UpdatedSettings(old(lines), dbType).value
      ensures outcome.Raised? ==> lines == old(lines) && outcome.error == UnsupportedDatabase(dbType)
    {
      var current := lines;
      var rewritten := RewriteSettings(current, dbType);
      match rewritten {
        case Ok(newLines) =>
          lines := newLines;
          outcome := Written;
        case Err(e) =>
          outcome := Raised(e);
      }
    }
  }
}
