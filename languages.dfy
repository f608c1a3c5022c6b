/**
  The language catalog: the closed set of languages the workbench offers,
  each with the CSS class the external highlighter recognises, the name shown
  in the dropdown and the icon shown next to it.
 */
module Languages {
  import opened Wrappers

  datatype Language =
    | C | CSharp | Python | Css | Delphi | VisualBasic
    | Java | JavaScript | Ruby | Sql | Xml | Php

  /** Every language, in declaration order. */
  const AllLanguages: seq<Language> :=
    [C, CSharp, Python, Css, Delphi, VisualBasic, Java, JavaScript, Ruby, Sql, Xml, Php]

  /** The highlighter class tag of a language; `FromClass` reads it back. */
  function ToClass(l: Language): (r: string)
    ensures r != ""
    ensures FromClass(r) == Some(l)
  {
    match l
    case C => "cpp"
    case CSharp => "csharp"
    case Python => "python"
    case Css => "css"
    case Delphi => "delphi"
    case VisualBasic => "vb"
    case Java => "java"
    case JavaScript => "js"
    case Ruby => "ruby"
    case Sql => "sql"
    case Xml => "xml"
    case Php => "php"
  }

  /** Which language, if any, a highlighter class tag stands for. */
  function FromClass(tag: string): (r: Option<Language>)
  {
    if tag == "cpp" then Some(C)
    else if tag == "csharp" then Some(CSharp)
    else if tag == "python" then Some(Python)
    else if tag == "css" then Some(Css)
    else if tag == "delphi" then Some(Delphi)
    else if tag == "vb" then Some(VisualBasic)
    else if tag == "java" then Some(Java)
    else if tag == "js" then Some(JavaScript)
    else if tag == "ruby" then Some(Ruby)
    else if tag == "sql" then Some(Sql)
    else if tag == "xml" then Some(Xml)
    else if tag == "php" then Some(Php)
    else None
  }

  /** The display name of a language; `FromName` reads it back. */
  function ToName(l: Language): (r: string)
    ensures r != ""
    ensures FromName(r) == Some(l)
  {
    match l
    case C => "C / C++"
    case CSharp => "C#"
    case Python => "Python"
    case Css => "CSS"
    case Delphi => "Delphi"
    case VisualBasic => "VisualBasic"
    case Java => "Java"
    case JavaScript => "JavaScript"
    case Ruby => "Ruby"
    case Sql => "SQL"
    case Xml => "HTML / XML"
    case Php => "PHP"
  }

  /** Which language, if any, a display name stands for. */
  function FromName(name: string): (r: Option<Language>)
  {
    if name == "C / C++" then Some(C)
    else if name == "C#" then Some(CSharp)
    else if name == "Python" then Some(Python)
    else if name == "CSS" then Some(Css)
    else if name == "Delphi" then Some(Delphi)
    else if name == "VisualBasic" then Some(VisualBasic)
    else if name == "Java" then Some(Java)
    else if name == "JavaScript" then Some(JavaScript)
    else if name == "Ruby" then Some(Ruby)
    else if name == "SQL" then Some(Sql)
    else if name == "HTML / XML" then Some(Xml)
    else if name == "PHP" then Some(Php)
    else None
  }

  const IconDirectory := "./assets/images/"

  /** The icon of a language: a file under the assets image directory. */
  function ToFilePath(l: Language): (r: string)
    ensures |r| > |IconDirectory| && r[..|IconDirectory|] == IconDirectory
    ensures FromFilePath(r) == Some(l)
  {
    match l
    case C => "./assets/images/cpp.png"
    case CSharp => "./assets/images/csharp.png"
    case Python => "./assets/images/python.png"
    case Css => "./assets/images/css.png"
    case Delphi => "./assets/images/delphi.png"
    case VisualBasic => "./assets/images/viauslbasic.svg"
    case Java => "./assets/images/java.png"
    case JavaScript => "./assets/images/javascript.png"
    case Ruby => "./assets/images/ruby.png"
    case Sql => "./assets/images/sql.png"
    case Xml => "./assets/images/html.png"
    case Php => "./assets/images/php.png"
  }

  /** Which language, if any, an icon path belongs to. */
  function FromFilePath(path: string): (r: Option<Language>)
  {
    if path == "./assets/images/cpp.png" then Some(C)
    else if path == "./assets/images/csharp.png" then Some(CSharp)
    else if path == "./assets/images/python.png" then Some(Python)
    else if path == "./assets/images/css.png" then Some(Css)
    else if path == "./assets/images/delphi.png" then Some(Delphi)
    else if path == "./assets/images/viauslbasic.svg" then Some(VisualBasic)
    else if path == "./assets/images/java.png" then Some(Java)
    else if path == "./assets/images/javascript.png" then Some(JavaScript)
    else if path == "./assets/images/ruby.png" then Some(Ruby)
    else if path == "./assets/images/sql.png" then Some(Sql)
    else if path == "./assets/images/html.png" then Some(Xml)
    else if path == "./assets/images/php.png" then Some(Php)
    else None
  }

  /** The catalog lists every language exactly once. */
  lemma CatalogComplete(l: Language)
    ensures l in AllLanguages
    ensures |AllLanguages| == 12
    ensures forall i, j :: 0 <= i < j < |AllLanguages| ==> AllLanguages[i] != AllLanguages[j]
  {
  }

  /** Distinct languages get distinct class tags, names and icons. */
  lemma CatalogDistinct(a: Language, b: Language)
    requires a != b
    ensures ToClass(a) != ToClass(b)
    ensures ToName(a) != ToName(b)
    ensures ToFilePath(a) != ToFilePath(b)
  {
  }
}
