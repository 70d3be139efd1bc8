/** The database manager: the guard that refuses to initialise without a
    working connection, the current and newest schema versions computed
    from the migration graph, and the loading of the default messages from
    their CSV file. Connection probes, the migration graph, the generated
    password and the file content are parameters; the message tables are
    maps. */
module DatabaseManager {
  import opened Wrappers
  import opened Text

  /* ---------------------------------------------------------------- */
  /* Initialisation                                                    */
  /* ---------------------------------------------------------------- */

  function Get(config: map<string, string>, key: string): Option<string>
  {
    if key in config then Some(config[key]) else None
  }

  /** The error raised when neither connection works. */
  function CannotConnect(config: map<string, string>): string
  {
    "Cannot connect to the database " + Shown(Get(config, "DB_USER")) + "@" + Shown(Get(config, "DB_HOST")) + ":" +
    Shown(Get(config, "DB_PORT")) + "/" + Shown(Get(config, "DB_NAME"))
  }

  /** DatabaseManager.create_database: the statement run on the admin
      connection, for MySQL and PostgreSQL only. */
  function CreateDatabase(engine: Option<string>, name: string): (r: Result<string>)
    ensures r.Ok? <==> engine == Some("mysql") || engine == Some("postgresql")
    ensures r.Err? ==> r.error == "Unsuported engine " + Shown(engine)
    ensures engine == Some("mysql") ==> r == Ok("CREATE DATABASE IF NOT EXISTS " + name + ";")
  {
    if engine == Some("mysql") then Ok("CREATE DATABASE IF NOT EXISTS " + name + ";")
    else if engine == Some("postgresql") then
      Ok("SELECT 'CREATE DATABASE " + name + "' WHERE NOT EXISTS (SELECT FROM pg_database WHERE datname = '" +
         name + "')\\gexec")
    else Err("Unsuported engine " + Shown(engine))
  }

  /** DatabaseManager.create_user: the grant run on the admin connection;
      only MySQL is implemented. */
  function CreateUser(engine: Option<string>, name: string, user: string, password: string): (r: Result<string>)
    ensures r.Ok? <==> engine == Some("mysql")
    ensures engine == Some("postgresql") ==> r == Err("PostgreSQL user creation not implemented")
    ensures engine != Some("mysql") && engine != Some("postgresql") ==> r == Err("Unsuported engine " + Shown(engine))
  {
    if engine == Some("mysql") then
      Ok("GRANT ALL PRIVILEGES ON " + name + ".* TO '" + user + "'@'%' IDENTIFIED BY '" + password + "';")
    else if engine == Some("postgresql") then Err("PostgreSQL user creation not implemented")
    else Err("Unsuported engine " + Shown(engine))
  }

  /** The outcome of DatabaseManager.initialize up to the migrations: the
      configuration as saved, and whether the database and its user were
      created. `defaultConnected` and `adminConnected` are the first
      connection probe, `connectedAfter` the probe after the creation, and
      `password` the random password generated when none is configured. */
  method Initialize(config: map<string, string>, defaultConnected: bool, adminConnected: bool,
                    password: string, connectedAfter: bool)
    returns (saved: map<string, string>, r: Result<bool>)
    ensures !defaultConnected && !adminConnected ==> r == Err(CannotConnect(config)) && saved == config
    ensures defaultConnected ==> r == Ok(false) && saved == config
    ensures !defaultConnected && adminConnected ==>
              saved == (if "DB_PASSWORD" in config then config else config["DB_PASSWORD" := password])
    ensures r.Ok? <==> defaultConnected || (adminConnected && Get(config, "DB_ENGINE") == Some("mysql") && connectedAfter)
    ensures r.Ok? && r.value ==> saved["DB_PASSWORD"] == Get(config, "DB_PASSWORD").UnwrapOr(password)
    ensures !defaultConnected && adminConnected && Get(config, "DB_ENGINE") == Some("mysql") && !connectedAfter ==>
              r == Err("Database and user creation failed")
  {
    saved := config;
    if !defaultConnected && !adminConnected {
      return saved, Err(CannotConnect(config));
    }
    if defaultConnected {
      return saved, Ok(false);
    }
    if "DB_PASSWORD" !in saved {
      saved := saved["DB_PASSWORD" := password];
    }
    var engine := Get(saved, "DB_ENGINE");
    var name := Shown(Get(saved, "DB_NAME"));
    var database := CreateDatabase(engine, name);
    if database.Err? {
      return saved, Err(database.error);
    }
    var user := CreateUser(engine, name, Shown(Get(saved, "DB_USER")), saved["DB_PASSWORD"]);
    if user.Err? {
      return saved, Err(user.error);
    }
    if !connectedAfter {
      return saved, Err("Database and user creation failed");
    }
    r := Ok(true);
  }

  /* ---------------------------------------------------------------- */
  /* Schema versions                                                   */
  /* ---------------------------------------------------------------- */

  /** A migration of the graph: its application label and its name. */
  datatype Migration = Migration(app: string, name: string)

  const TeslaApp := "tesla_ce"

  /** The version of a migration: the integer before the first `_` of its
      name. */
  function VersionOf(name: string): Option<int>
  {
    ParseInt(Split(name, '_')[0])
  }

  /** The first `n` TeSLA CE migrations of the list have numbered names. */
  predicate Numbered(ms: seq<Migration>, version: string -> Option<int>, n: int := |ms|)
    requires n <= |ms|
  {
    forall i :: 0 <= i < n && ms[i].app == TeslaApp ==> version(ms[i].name).Some?
  }

  /** No TeSLA CE migration among the first `n` of the list. */
  predicate NoTesla(ms: seq<Migration>, n: int := |ms|)
    requires n <= |ms|
  {
    forall i :: 0 <= i < n ==> ms[i].app != TeslaApp
  }

  /** Position `i` holds the last TeSLA CE migration among the first `n`. */
  predicate LastTesla(ms: seq<Migration>, i: int, n: int := |ms|)
    requires n <= |ms|
  {
    0 <= i < n && ms[i].app == TeslaApp && forall j :: i < j < n ==> ms[j].app != TeslaApp
  }

  /** `v` is the lowest version among the TeSLA CE migrations of the
      first `n` of the list. */
  predicate Lowest(ms: seq<Migration>, version: string -> Option<int>, v: int, n: int := |ms|)
    requires n <= |ms|
  {
    (exists i :: 0 <= i < n && ms[i].app == TeslaApp && version(ms[i].name) == Some(v)) &&
    forall i :: 0 <= i < n && ms[i].app == TeslaApp ==> version(ms[i].name).Some? && v <= version(ms[i].name).value
  }

  /** The versions reported by `_check_migrations`. */
  datatype MigrationStatus = MigrationStatus(current: Option<int>, newest: Option<int>)

  function BadVersion(name: string): string
  {
    "invalid literal for int() with base 10: '" + Split(name, '_')[0] + "'"
  }

  /** DatabaseManager._check_migrations over the leaf targets and the
      pending plan: the newest version is the one of the last TeSLA CE
      target; the current one is the newest when nothing is pending, none
      when the first migration is pending, and one below the lowest pending
      version otherwise. A migration name that does not start with a number
      raises. */
  method CheckMigrations(targets: seq<Migration>, plan: seq<Migration>) returns (r: Result<MigrationStatus>)
    ensures r.Ok? <==> Numbered(targets, VersionOf) && Numbered(plan, VersionOf)
    ensures r.Ok? ==> (r.value.newest.None? <==> NoTesla(targets))
    ensures r.Ok? && r.value.newest.Some? ==>
              exists i :: LastTesla(targets, i) && VersionOf(targets[i].name) == r.value.newest
    ensures r.Ok? && NoTesla(plan) ==> r.value.current == r.value.newest
    ensures r.Ok? && !NoTesla(plan) ==>
              exists v :: Lowest(plan, VersionOf, v) && r.value.current == (if v == 1 then None else Some(v - 1))
  {
    var newest := NewestVersion(targets, VersionOf);
    if newest.Err? {
      return Err(newest.error);
    }
    var lowest := LowestPending(plan, VersionOf);
    if lowest.Err? {
      return Err(lowest.error);
    }
    if lowest.value.None? {
      r := Ok(MigrationStatus(newest.value, newest.value));
    } else if lowest.value.value == 1 {
      r := Ok(MigrationStatus(None, newest.value));
    } else {
      r := Ok(MigrationStatus(Some(lowest.value.value - 1), newest.value));
    }
  }

  /** The first loop of `_check_migrations`: the version of the last
      TeSLA CE target, none without one. `version` is the parser of
      migration names, VersionOf. */
  method NewestVersion(targets: seq<Migration>, version: string -> Option<int>) returns (r: Result<Option<int>>)
    ensures r.Ok? <==> Numbered(targets, version)
    ensures r.Ok? ==> (r.value.None? <==> NoTesla(targets))
    ensures r.Ok? && r.value.Some? ==> exists i :: LastTesla(targets, i) && version(targets[i].name) == r.value
  {
    var newest: Option<int> := None;
    ghost var last := -1;
    for i := 0 to |targets|
      invariant Numbered(targets, version, i)
      invariant newest.None? <==> NoTesla(targets, i)
      invariant newest.Some? ==> LastTesla(targets, last, i) && version(targets[last].name) == newest
    {
      if targets[i].app == TeslaApp {
        var v := version(targets[i].name);
        if v.None? {
          assert !Numbered(targets, version);
          return Err(BadVersion(targets[i].name));
        }
        newest := v;
        last := i;
      }
    }
    r := Ok(newest);
  }

  /** The second loop of `_check_migrations`: the lowest version of the
      pending TeSLA CE migrations, none without one. `version` is the
      parser of migration names, VersionOf. */
  method LowestPending(plan: seq<Migration>, version: string -> Option<int>) returns (r: Result<Option<int>>)
    ensures r.Ok? <==> Numbered(plan, version)
    ensures r.Ok? ==> (r.value.None? <==> NoTesla(plan))
    ensures r.Ok? && r.value.Some? ==> Lowest(plan, version, r.value.value)
  {
    var lowest: Option<int> := None;
    ghost var at := -1;
    for i := 0 to |plan|
      invariant Numbered(plan, version, i)
      invariant lowest.None? <==> NoTesla(plan, i)
      invariant lowest.Some? ==> 0 <= at < i && plan[at].app == TeslaApp && version(plan[at].name) == lowest
      invariant lowest.Some? ==>
                  forall j :: 0 <= j < i && plan[j].app == TeslaApp ==> lowest.value <= version(plan[j].name).value
    {
      if plan[i].app == TeslaApp {
        var v := version(plan[i].name);
        if v.None? {
          assert !Numbered(plan, version);
          return Err(BadVersion(plan[i].name));
        }
        if lowest.None? || v.value < lowest.value {
          lowest := v;
          at := i;
        }
      }
    }
    r := Ok(lowest);
  }

  /** A migration named by a number and a `_` has that number as version. */
  lemma VersionOfNumbered(digits: string, rest: string)
    requires digits != [] && forall i :: 0 <= i < |digits| ==> IsDigit(digits[i])
    ensures VersionOf(digits + "_" + rest) == Some(DigitsValue(digits) as int)
  {
    assert '_' !in digits by {
      forall i | 0 <= i < |digits|
        ensures digits[i] != '_'
      {
        assert IsDigit(digits[i]);
      }
    }
    SplitAtSep(digits, rest, '_');
    assert digits + "_" + rest == digits + ['_'] + rest;
    assert Split(digits + "_" + rest, '_')[0] == digits;
    DigitsParse(digits);
  }

  /* ---------------------------------------------------------------- */
  /* Default messages                                                  */
  /* ---------------------------------------------------------------- */

  /** A message: its data type, description and meaning. */
  datatype MessageRow = MessageRow(dataType: string, description: string, meaning: string)

  /** The Message table keyed by code and the MessageLocale table keyed by
      message code and locale. */
  datatype Messages = Messages(rows: map<string, MessageRow>, locales: map<(string, string), string>)

  /** `readline()` on the rest of a file: the next line with its newline,
      and what follows; the empty string at the end. */
  function NextLine(s: string): (r: (string, string))
    ensures r.0 + r.1 == s
    ensures r.0 == [] <==> s == []
    ensures forall i :: 0 <= i < |r.0| - 1 ==> r.0[i] != '\n'
    ensures r.1 != [] ==> r.0[|r.0| - 1] == '\n'
    decreases |s|
  {
    if s == [] then ([], [])
    else if s[0] == '\n' then ([s[0]], s[1..])
    else
      var next := NextLine(s[1..]);
      ([s[0]] + next.0, next.1)
  }

  /** `line.replace('\n', '')`. */
  function Chomp(line: string): string
  {
    Replace(line, "\n", "")
  }

  /** The languages of the file: the header columns from the fifth on. */
  function Languages(header: string): seq<string>
  {
    var parts := Split(Chomp(header), ';');
    if |parts| >= 4 then parts[4..] else []
  }

  /** The locale table after the first `n` pairs of `zip(languages,
      translations)`, a pair stored only when its translation is not
      empty. */
  function Translated(locales: map<(string, string), string>, code: string, languages: seq<string>,
                      translations: seq<string>, n: nat): map<(string, string), string>
    requires n <= |languages| && n <= |translations|
  {
    if n == 0 then locales
    else
      var before := Translated(locales, code, languages, translations, n - 1);
      if |translations[n - 1]| > 0 then before[(code, languages[n - 1]) := translations[n - 1]] else before
  }

  function Min(a: nat, b: nat): nat
  {
    if a <= b then a else b
  }

  /** The translation loop of update_default_messages for one message. */
  method SaveTranslations(locales: map<(string, string), string>, code: string, languages: seq<string>,
                          translations: seq<string>)
    returns (r: map<(string, string), string>)
    ensures r == Translated(locales, code, languages, translations, Min(|languages|, |translations|))
  {
    r := locales;
    var n := Min(|languages|, |translations|);
    for i := 0 to n
      invariant r == Translated(locales, code, languages, translations, i)
    {
      if |translations[i]| > 0 {
        r := r[(code, languages[i]) := translations[i]];
      }
    }
  }

  /** A translation changed by the loop is a non-empty translation of one
      of the languages, stored under the message's code. */
  lemma {:induction false} TranslatedChanges(locales: map<(string, string), string>, code: string,
                                             languages: seq<string>, translations: seq<string>, n: nat)
    requires n <= |languages| && n <= |translations|
    ensures locales.Keys <= Translated(locales, code, languages, translations, n).Keys
    ensures forall k :: k in Translated(locales, code, languages, translations, n) &&
                        (k !in locales || Translated(locales, code, languages, translations, n)[k] != locales[k]) ==>
                          k.0 == code && k.1 in languages[..n] &&
                          Translated(locales, code, languages, translations, n)[k] in translations[..n] &&
                          Translated(locales, code, languages, translations, n)[k] != ""
  {
    if n > 0 {
      TranslatedChanges(locales, code, languages, translations, n - 1);
      assert languages[..n] == languages[..n - 1] + [languages[n - 1]];
      assert translations[..n] == translations[..n - 1] + [translations[n - 1]];
    }
  }

  /** With distinct languages, each language ends up with its own
      translation when that is not empty, and keeps its previous one
      otherwise. */
  lemma {:induction false} TranslatedStores(locales: map<(string, string), string>, code: string,
                                            languages: seq<string>, translations: seq<string>, n: nat, i: nat)
    requires n <= |languages| && n <= |translations| && i < n
    requires forall a, b :: 0 <= a < b < n ==> languages[a] != languages[b]
    ensures translations[i] != "" ==>
              (code, languages[i]) in Translated(locales, code, languages, translations, n) &&
              Translated(locales, code, languages, translations, n)[(code, languages[i])] == translations[i]
    ensures translations[i] == "" ==>
              ((code, languages[i]) in Translated(locales, code, languages, translations, n) <==>
               (code, languages[i]) in locales)
    ensures translations[i] == "" && (code, languages[i]) in locales ==>
              Translated(locales, code, languages, translations, n)[(code, languages[i])] == locales[(code, languages[i])]
  {
    if i < n - 1 {
      TranslatedStores(locales, code, languages, translations, n - 1, i);
      assert languages[n - 1] != languages[i];
    } else {
      assert languages[i] !in languages[..n - 1];
      TranslatedUntouched(locales, code, languages, translations, n - 1, languages[i]);
    }
  }

  /** A language not among the first `n` keeps its entry. */
  lemma {:induction false} TranslatedUntouched(locales: map<(string, string), string>, code: string,
                                               languages: seq<string>, translations: seq<string>, n: nat,
                                               language: string)
    requires n <= |languages| && n <= |translations|
    requires language !in languages[..n]
    ensures ((code, language) in Translated(locales, code, languages, translations, n)) ==
            ((code, language) in locales)
    ensures (code, language) in locales ==>
              Translated(locales, code, languages, translations, n)[(code, language)] == locales[(code, language)]
  {
    if n > 0 {
      assert languages[..n - 1] == languages[..n][..n - 1];
      TranslatedUntouched(locales, code, languages, translations, n - 1, language);
    }
  }

  /** One data line: the message row from the first four columns, then the
      translations of the following columns. A line with fewer than four
      columns raises. */
  function StoreRow(db: Messages, languages: seq<string>, line: string): Result<Messages>
  {
    var parts := Split(line, ';');
    if |parts| < 4 then Err("list index out of range")
    else
      var translations := parts[4..];
      Ok(Messages(db.rows[parts[0] := MessageRow(parts[1], parts[2], parts[3])],
                  Translated(db.locales, parts[0], languages, translations, Min(|languages|, |translations|))))
  }

  /** The rows from `line` on, `rest` being what follows it in the file; the
      loop stops at an empty line. A later line has its newline removed
      only when `chompEach` holds. */
  function Store(db: Messages, languages: seq<string>, line: string, rest: string, chompEach: bool)
    : (Messages, Option<string>)
    decreases |rest|, |line|
  {
    if |line| == 0 then (db, None)
    else
      match StoreRow(db, languages, line)
      case Err(e) => (db, Some(e))
      case Ok(next) =>
        var (following, after) := NextLine(rest);
        Store(next, languages, if chompEach then Chomp(following) else following, after, chompEach)
  }

  /** The messages file loaded over `db`: the header gives the languages,
      then one message per line until the first empty line or the end. The
      header and the first data line lose their newline; the later ones
      lose it only when `chompEach` holds. */
  function Load(content: string, db: Messages, chompEach: bool): (Messages, Option<string>)
  {
    var (header, rest) := NextLine(content);
    var (first, after) := NextLine(rest);
    Store(db, Languages(header), Chomp(first), after, chompEach)
  }

  /** DatabaseManager.update_default_messages as it reads the file: only
      the header and the first data line are stripped of their newline, so
      the loaded translations are those of the header's languages, never
      empty, but may end in a newline. */
  function LoadAsWritten(content: string, db: Messages): (r: (Messages, Option<string>))
    ensures ChangedWithin(db.locales, r.0.locales, Languages(NextLine(content).0), false)
  {
    LoadChanges(content, db, false);
    Load(content, db, false)
  }

  /** DatabaseManager.update_default_messages with every line stripped of
      its newline: the message and locale tables after loading `content`,
      and the error raised by a line with fewer than four columns. */
  method UpdateDefaultMessages(content: string, db: Messages) returns (r: Messages, error: Option<string>)
    ensures (r, error) == Load(content, db, true)
  {
    var header, rest := NextLine(content).0, NextLine(content).1;
    var languages := Languages(header);
    var first, after := NextLine(rest).0, NextLine(rest).1;
    var line := Chomp(first);
    r := db;
    while |line| > 0
      invariant Store(r, languages, line, after, true) == Load(content, db, true)
      decreases |after|, |line|
    {
      var parts := Split(line, ';');
      if |parts| < 4 {
        return r, Some("list index out of range");
      }
      var locales := SaveTranslations(r.locales, parts[0], languages, parts[4..]);
      r := Messages(r.rows[parts[0] := MessageRow(parts[1], parts[2], parts[3])], locales);
      var following := NextLine(after).0;
      after := NextLine(after).1;
      line := Chomp(following);
    }
    error := None;
  }

  /** The locale entries that differ between `before` and `after` are
      non-empty translations of one of `languages`, and hold no newline
      when `clean`; no entry is removed. */
  ghost predicate ChangedWithin(before: map<(string, string), string>, after: map<(string, string), string>,
                                languages: seq<string>, clean: bool)
  {
    before.Keys <= after.Keys &&
    forall k :: k in after && (k !in before || after[k] != before[k]) ==>
                  k.1 in languages && after[k] != "" && (clean ==> '\n' !in after[k])
  }

  lemma ChangedWithinTrans(a: map<(string, string), string>, b: map<(string, string), string>,
                           c: map<(string, string), string>, languages: seq<string>, clean: bool)
    requires ChangedWithin(a, b, languages, clean) && ChangedWithin(b, c, languages, clean)
    ensures ChangedWithin(a, c, languages, clean)
  {
  }

  /** One stored row changes only the translations of its own columns. */
  lemma StoreRowChanges(db: Messages, languages: seq<string>, line: string, clean: bool)
    requires StoreRow(db, languages, line).Ok?
    requires clean ==> '\n' !in line
    ensures ChangedWithin(db.locales, StoreRow(db, languages, line).value.locales, languages, clean)
  {
    var parts := Split(line, ';');
    var translations := parts[4..];
    var n := Min(|languages|, |translations|);
    TranslatedChanges(db.locales, parts[0], languages, translations, n);
    if clean {
      SplitPartsFrom(line, ';', '\n');
      assert forall t :: t in translations[..n] ==> '\n' !in t;
    }
  }

  /** Loading from a line on changes only translations of the languages,
      never to an empty one, and with every line stripped never to one
      holding a newline. */
  lemma {:induction false} StoreChanges(db: Messages, languages: seq<string>, line: string, rest: string, chompEach: bool)
    requires chompEach ==> '\n' !in line
    ensures ChangedWithin(db.locales, Store(db, languages, line, rest, chompEach).0.locales, languages, chompEach)
    decreases |rest|, |line|
  {
    if |line| > 0 && StoreRow(db, languages, line).Ok? {
      var next := StoreRow(db, languages, line).value;
      StoreRowChanges(db, languages, line, chompEach);
      var (following, after) := NextLine(rest);
      var nextLine := if chompEach then Chomp(following) else following;
      if chompEach {
        ReplaceCharRemoves(following, '\n');
      }
      StoreChanges(next, languages, nextLine, after, chompEach);
      ChangedWithinTrans(db.locales, next.locales, Store(db, languages, line, rest, chompEach).0.locales,
                         languages, chompEach);
    }
  }

  /** Loading the messages file stores translations only for the header's
      languages and only when not empty; with every line stripped, no
      stored translation holds a newline. */
  lemma LoadChanges(content: string, db: Messages, chompEach: bool)
    ensures ChangedWithin(db.locales, Load(content, db, chompEach).0.locales, Languages(NextLine(content).0), chompEach)
  {
    var (header, rest) := NextLine(content);
    var (first, after) := NextLine(rest);
    ReplaceCharRemoves(first, '\n');
    StoreChanges(db, Languages(header), Chomp(first), after, chompEach);
  }

  /** With every line stripped, no translation loaded ends in a newline. */
  lemma LoadedTranslationsClean(content: string, db: Messages)
    requires forall k :: k in db.locales ==> '\n' !in db.locales[k]
    ensures var locales := Load(content, db, true).0.locales;
            forall k :: k in locales ==> '\n' !in locales[k]
  {
    LoadChanges(content, db, true);
  }

  /** `readline()` on a line ended by a newline. */
  lemma {:induction false} NextLineOf(a: string, b: string)
    requires '\n' !in a
    ensures NextLine(a + "\n" + b) == (a + "\n", b)
    decreases |a|
  {
    if a == [] {
      assert a + "\n" + b == ['\n'] + b;
    } else {
      assert (a + "\n" + b)[1..] == a[1..] + "\n" + b;
      NextLineOf(a[1..], b);
      assert [a[0]] + (a[1..] + "\n") == a + "\n";
    }
  }

  /** Removing the newline of a line. */
  lemma {:induction false} ChompLine(a: string)
    requires '\n' !in a
    ensures Chomp(a + "\n") == a
    decreases |a|
  {
    if a == [] {
      assert Replace("\n", "\n", "") == "" + Replace("", "\n", "");
    } else {
      var s := a + "\n";
      assert s[..1] == [a[0]] && s[1..] == a[1..] + "\n";
      ChompLine(a[1..]);
      assert [a[0]] + a[1..] == a;
    }
  }

  /** A line of five `;`-separated fields. */
  function Row(a: string, b: string, c: string, d: string, e: string): string
  {
    a + ";" + (b + ";" + (c + ";" + (d + ";" + e)))
  }

  /** A file with a header and two messages, each line ended by a newline:
      `c;t;d;m;en`, `A;t;d;m;x` and `B;t;d;m;y`. */
  const Sample := Row("c", "t", "d", "m", "en") + "\n" +
                  (Row("A", "t", "d", "m", "x") + "\n" + (Row("B", "t", "d", "m", "y") + "\n" + ""))

  const Empty := Messages(map[], map[])

  /** A field followed by `;` is the first column of the split. */
  lemma ColumnThen(x: string, rest: string)
    requires ';' !in x
    ensures Split(x + ";" + rest, ';') == [x] + Split(rest, ';')
  {
    SplitAtSep(x, rest, ';');
    assert x + [';'] + rest == x + ";" + rest;
  }

  /** The columns of a line with five `;`-separated fields. */
  lemma Columns(a: string, b: string, c: string, d: string, e: string)
    requires ';' !in a && ';' !in b && ';' !in c && ';' !in d && ';' !in e
    ensures Split(a + ";" + (b + ";" + (c + ";" + (d + ";" + e))), ';') == [a, b, c, d, e]
  {
    SplitNoSep(e, ';');
    ColumnThen(d, e);
    ColumnThen(c, d + ";" + e);
    ColumnThen(b, c + ";" + (d + ";" + e));
    ColumnThen(a, b + ";" + (c + ";" + (d + ";" + e)));
  }

  /** The lines of Sample as `readline()` returns them. */
  lemma SampleLines(header: string, lineA: string, lineB: string)
    requires header == Row("c", "t", "d", "m", "en") && lineA == Row("A", "t", "d", "m", "x")
    requires lineB == Row("B", "t", "d", "m", "y")
    ensures NextLine(Sample) == (header + "\n", lineA + "\n" + (lineB + "\n" + ""))
    ensures NextLine(lineA + "\n" + (lineB + "\n" + "")) == (lineA + "\n", lineB + "\n" + "")
    ensures NextLine(lineB + "\n" + "") == (lineB + "\n", "")
    ensures Chomp(header + "\n") == header && Chomp(lineA + "\n") == lineA && Chomp(lineB + "\n") == lineB
    ensures Languages(header + "\n") == ["en"]
  {
    NextLineOf(header, lineA + "\n" + (lineB + "\n" + ""));
    NextLineOf(lineA, lineB + "\n" + "");
    NextLineOf(lineB, "");
    ChompLine(header);
    ChompLine(lineA);
    ChompLine(lineB);
    Columns("c", "t", "d", "m", "en");
  }

  /** The unstripped line `B;t;d;m;y` followed by its newline stores `y`
      and the newline as the English translation. */
  lemma LastColumnKeepsNewline(db: Messages)
    ensures StoreRow(db, ["en"], Row("B", "t", "d", "m", "y") + "\n").Ok?
    ensures ("B", "en") in StoreRow(db, ["en"], Row("B", "t", "d", "m", "y") + "\n").value.locales
    ensures StoreRow(db, ["en"], Row("B", "t", "d", "m", "y") + "\n").value.locales[("B", "en")] == "y\n"
  {
    Columns("B", "t", "d", "m", "y\n");
    assert Row("B", "t", "d", "m", "y") + "\n" == Row("B", "t", "d", "m", "y\n");
  }

  /** As written, the second message of Sample gets its English translation
      with the line's newline still attached. */
  lemma AsWrittenKeepsNewline()
    ensures ("B", "en") in LoadAsWritten(Sample, Empty).0.locales
    ensures LoadAsWritten(Sample, Empty).0.locales[("B", "en")] == "y\n"
  {
    var header, lineA, lineB := Row("c", "t", "d", "m", "en"), Row("A", "t", "d", "m", "x"), Row("B", "t", "d", "m", "y");
    SampleLines(header, lineA, lineB);
    Columns("A", "t", "d", "m", "x");
    var afterA := StoreRow(Empty, ["en"], lineA).value;
    LastColumnKeepsNewline(afterA);
    var afterB := StoreRow(afterA, ["en"], lineB + "\n").value;
    assert Store(afterB, ["en"], "", "", false) == (afterB, None);
    assert Store(afterA, ["en"], lineB + "\n", "", false) == (afterB, None);
    assert Store(Empty, ["en"], lineA, lineB + "\n" + "", false) == (afterB, None);
  }

  /** With every line stripped, the same message gets its translation
      without the newline. */
  lemma StrippedDropsNewline()
    ensures ("B", "en") in Load(Sample, Empty, true).0.locales
    ensures Load(Sample, Empty, true).0.locales[("B", "en")] == "y"
  {
    var header, lineA, lineB := Row("c", "t", "d", "m", "en"), Row("A", "t", "d", "m", "x"), Row("B", "t", "d", "m", "y");
    SampleLines(header, lineA, lineB);
    Columns("A", "t", "d", "m", "x");
    Columns("B", "t", "d", "m", "y");
    var afterA := StoreRow(Empty, ["en"], lineA).value;
    var afterB := StoreRow(afterA, ["en"], lineB).value;
    assert afterB.locales[("B", "en")] == "y";
    assert NextLine("") == ("", "") && Chomp("") == "";
    assert Store(afterB, ["en"], "", "", true) == (afterB, None);
    assert Store(afterA, ["en"], lineB, "", true) == (afterB, None);
    assert Store(Empty, ["en"], lineA, lineB + "\n" + "", true) == (afterB, None);
  }
}
