/** The language catalogue of the interview server: six languages, each with
    its editor id, starter code and whether it can run in the browser, a
    default entry and a lookup by id. */
module Languages {
  import opened Common

  datatype Language = Language(
    id: string,
    name: string,
    monacoId: string,
    defaultCode: string,
    canExecuteInBrowser: bool)

  const JavaScript := Language(
    "javascript", "JavaScript", "javascript",
    "// JavaScript\nfunction greet(name) {\n  console.log('Hello, ' + name + '!');\n}\n\ngreet('World');",
    true)

  const TypeScript := Language(
    "typescript", "TypeScript", "typescript",
    "// TypeScript\nfunction greet(name: string): void {\n  console.log(`Hello, ${name}!`);\n}\n\ngreet('World');",
    true)

  const Python := Language(
    "python", "Python", "python",
    "# Python\ndef greet(name):\n    print(f\"Hello, {name}!\")\n\ngreet(\"World\")",
    false)

  const Java := Language(
    "java", "Java", "java",
    "// Java\npublic class Main {\n    public static void main(String[] args) {\n        System.out.println(\"Hello, World!\");\n    }\n}",
    false)

  const Cpp := Language(
    "cpp", "C++", "cpp",
    "// C++\n#include <iostream>\nusing namespace std;\n\nint main() {\n    cout << \"Hello, World!\" << endl;\n    return 0;\n}",
    false)

  const Go := Language(
    "go", "Go", "go",
    "// Go\npackage main\n\nimport \"fmt\"\n\nfunc main() {\n    fmt.Println(\"Hello, World!\")\n}",
    false)

  /** The catalogue, in the order the server lists it. */
  const Catalogue: seq<Language> := [JavaScript, TypeScript, Python, Java, Cpp, Go]

  /** The ids of a table, in order. */
  function Ids(table: seq<Language>): (ids: seq<string>)
    ensures |ids| == |table|
    ensures forall k :: 0 <= k < |table| ==> ids[k] == table[k].id
  {
    if table == [] then [] else [table[0].id] + Ids(table[1..])
  }

  /** No two entries of a table share an id. */
  predicate DistinctIds(table: seq<Language>)
  {
    forall i, j :: 0 <= i < j < |table| ==> table[i].id != table[j].id
  }

  /** `table.find(lang => lang.id === id)`: the first entry with that id, or
      `None` (JavaScript's `undefined`) when no entry has it. */
  function Find(table: seq<Language>, id: string): (r: Option<Language>)
    ensures r.None? <==> id !in Ids(table)
    ensures r.Some? ==> r.value.id == id && r.value in table
  {
    if table == [] then None
    else if table[0].id == id then Some(table[0])
    else
      assert Ids(table) == [table[0].id] + Ids(table[1..]);
      Find(table[1..], id)
  }

  /** The entry found is the first one with that id: every entry before it
      has another id. */
  lemma {:induction false} FindIsFirst(table: seq<Language>, id: string)
    ensures Find(table, id).Some? ==>
      exists k :: 0 <= k < |table| && table[k] == Find(table, id).value
        && forall j :: 0 <= j < k ==> table[j].id != id
  {
    if table != [] && table[0].id != id {
      var tail := table[1..];
      FindIsFirst(tail, id);
      assert Find(table, id) == Find(tail, id);
      if Find(tail, id).Some? {
        var k :| 0 <= k < |tail| && tail[k] == Find(tail, id).value
          && forall j :: 0 <= j < k ==> tail[j].id != id;
        forall j | 0 <= j < k + 1 ensures table[j].id != id {
          if j > 0 { assert table[j] == tail[j - 1]; }
        }
        assert table[k + 1] == tail[k];
      }
    }
  }

  /** In a table without duplicate ids, looking up an entry's own id finds
      that entry. */
  lemma {:induction false} FindOwnId(table: seq<Language>, k: nat)
    requires DistinctIds(table)
    requires k < |table|
    ensures Find(table, table[k].id) == Some(table[k])
  {
    if k > 0 {
      assert table[0].id != table[k].id;
      assert DistinctIds(table[1..]) by {
        forall i, j | 0 <= i < j < |table[1..]|
          ensures table[1..][i].id != table[1..][j].id
        {
          assert table[1..][i] == table[i + 1] && table[1..][j] == table[j + 1];
        }
      }
      FindOwnId(table[1..], k - 1);
    }
  }

  /** `getDefaultLanguage()`: the first catalogue entry, JavaScript, which
      runs in the browser and is what a lookup of its id finds. */
  function DefaultLanguage(): (l: Language)
    ensures l in Catalogue && l == Catalogue[0]
    ensures l.id == "javascript" && l.name == "JavaScript" && l.canExecuteInBrowser
    ensures Find(Catalogue, l.id) == Some(l)
  {
    Catalogue[0]
  }

  /** `getLanguageById(id)`. */
  function GetLanguageById(id: string): (r: Option<Language>)
    ensures r.Some? ==> r.value.id == id && r.value in Catalogue
  {
    Find(Catalogue, id)
  }

  /** The catalogue holds exactly these six ids, each once. */
  lemma CatalogueIds()
    ensures Ids(Catalogue) == ["javascript", "typescript", "python", "java", "cpp", "go"]
    ensures DistinctIds(Catalogue)
  {
    assert |Catalogue| == 6;
    assert JavaScript.id[0] != TypeScript.id[0];
    forall i, j | 0 <= i < j < 6
      ensures Catalogue[i].id != Catalogue[j].id
    {
      assert i > 0 ==> |Catalogue[i].id| > |Catalogue[j].id|;
    }
  }

  /** Lookup succeeds exactly on the catalogue's ids and then returns the
      one entry carrying that id; every other id gives `None`. */
  lemma GetLanguageByIdSpec(id: string)
    ensures GetLanguageById(id).Some? <==> id in Ids(Catalogue)
    ensures forall l :: l in Catalogue && l.id == id ==> GetLanguageById(id) == Some(l)
  {
    CatalogueIds();
    forall l | l in Catalogue && l.id == id
      ensures GetLanguageById(id) == Some(l)
    {
      var k :| 0 <= k < |Catalogue| && Catalogue[k] == l;
      FindOwnId(Catalogue, k);
    }
  }

  /** Every entry has starter code, and its editor id is its own id. */
  lemma CatalogueEntriesWellFormed()
    ensures forall l :: l in Catalogue ==> |l.defaultCode| > 0 && l.monacoId == l.id
  {
  }

  /** Only JavaScript and TypeScript run in the browser. */
  lemma BrowserExecutable()
    ensures forall l :: l in Catalogue ==>
      (l.canExecuteInBrowser <==> l.id == "javascript" || l.id == "typescript")
  {
  }
}
