// app/services/article_markdown.py, mdx_escape: prose escaped in seventeen substitutions over the whole string.
module MdxEscape {
  import opened Wrappers
  import opened Pieces

  // ---------- the substitutions ----------

  /** The character tables of the regular-expression engine: `\s`, `\w`, `\d` and case folding. */
  datatype Classes = Classes(space: char -> bool, word: char -> bool, digit: char -> bool, fold: char -> char)

  /** One `replace` of a character, or one `sub` of a pattern. */
  datatype Pass =
    | Replace(c: char, with: string)
    | Entity
    | BlockStart
    | Esm
    | Autolink
    | Www
    | Email

  predicate IsLetter(c: char) {
    'a' <= c <= 'z' || 'A' <= c <= 'Z'
  }

  predicate IsAlnum(c: char) {
    IsLetter(c) || '0' <= c <= '9'
  }

  predicate StartsWith(s: string, i: nat, prefix: string) {
    i + |prefix| <= |s| && s[i..i + |prefix|] == prefix
  }

  /** `[A-Za-z0-9]*;` from position `i`. */
  predicate EntityTail(s: string, i: nat)
    decreases |s| - i
  {
    i < |s| && (s[i] == ';' || (IsAlnum(s[i]) && EntityTail(s, i + 1)))
  }

  /** `&(?=[A-Za-z#][A-Za-z0-9]*;)` */
  predicate EntityAt(s: string, i: nat) {
    i + 1 < |s| && s[i] == '&' && (IsLetter(s[i + 1]) || s[i + 1] == '#') && EntityTail(s, i + 2)
  }

  /** The end of the run of characters in `table` from position `i`. */
  function RunEnd(table: char -> bool, s: string, i: nat): (e: nat)
    requires i <= |s|
    ensures i <= e <= |s|
    ensures forall j | i <= j < e :: table(s[j])
    ensures e < |s| ==> !table(s[e])
    decreases |s| - i
  {
    if i < |s| && table(s[i]) then RunEnd(table, s, i + 1) else i
  }

  predicate SpaceOrEnd(cls: Classes, s: string, i: nat) {
    i >= |s| || cls.space(s[i])
  }

  /** Where `^(\s*)([#>*+=|-]|\d+[.)])(?=\s|$)` puts its backslash: the marker, or the last character of a number. */
  function BlockMark(cls: Classes, s: string): Option<nat> {
    var k := RunEnd(cls.space, s, 0);
    var e := RunEnd(cls.digit, s, k);
    if k < |s| && s[k] in "#>*+=|-" && SpaceOrEnd(cls, s, k + 1) then Some(k)
    else if k < e < |s| && s[e] in ".)" && SpaceOrEnd(cls, s, e + 1) then Some(e)
    else None
  }

  /** Where `^(\s*)(import|export)(?=\s)` has its keyword. */
  function EsmMark(cls: Classes, s: string): Option<nat> {
    var k := RunEnd(cls.space, s, 0);
    if (StartsWith(s, k, "import") || StartsWith(s, k, "export")) && k + 6 < |s| && cls.space(s[k + 6])
    then Some(k) else None
  }

  /** `\b` */
  predicate Boundary(cls: Classes, s: string, i: nat) {
    (0 < i <= |s| && cls.word(s[i - 1])) != (i < |s| && cls.word(s[i]))
  }

  predicate FoldsTo(cls: Classes, s: string, i: nat, letters: string) {
    i + |letters| <= |s| && forall j | 0 <= j < |letters| :: cls.fold(s[i + j]) == letters[j]
  }

  /** The colon of `(?i)\b(https?|ftp|mailto):(?=//|\S)`. */
  predicate AutolinkAt(cls: Classes, s: string, i: nat) {
    && i + 1 < |s| && s[i] == ':' && (StartsWith(s, i + 1, "//") || !cls.space(s[i + 1]))
    && exists scheme | scheme in ["http", "https", "ftp", "mailto"] ::
         |scheme| <= i && FoldsTo(cls, s, i - |scheme|, scheme) && Boundary(cls, s, i - |scheme|)
  }

  /** `(?i)\bwww\.` */
  predicate WwwAt(cls: Classes, s: string, i: nat) {
    i + 3 < |s| && FoldsTo(cls, s, i, "www") && s[i + 3] == '.' && Boundary(cls, s, i)
  }

  predicate WwwLetterAt(cls: Classes, s: string, i: nat) {
    WwwAt(cls, s, i) || (i >= 1 && WwwAt(cls, s, i - 1)) || (i >= 2 && WwwAt(cls, s, i - 2))
  }

  /** `(?<=\S)@(?=\S)` */
  predicate EmailAt(cls: Classes, s: string, i: nat) {
    0 < i && i + 1 < |s| && s[i] == '@' && !cls.space(s[i - 1]) && !cls.space(s[i + 1])
  }

  /** What a substitution writes for the character at position `i`. */
  function Edit(cls: Classes, p: Pass, s: string, i: nat): string
    requires i < |s|
  {
    match p
    case Replace(c, with) => if s[i] == c then with else [s[i]]
    case Entity => if EntityAt(s, i) then "&amp;" else [s[i]]
    case BlockStart => if BlockMark(cls, s) == Some(i) then ['\\', s[i]] else [s[i]]
    case Esm =>
      if EsmMark(cls, s) != Some(i) then [s[i]] else if s[i] == 'i' then "&#105;" else "&#101;"
    case Autolink => if AutolinkAt(cls, s, i) then "&#58;" else [s[i]]
    case Www =>
      if i >= 3 && WwwAt(cls, s, i - 3) then "&#46;" else if WwwLetterAt(cls, s, i) then "w" else [s[i]]
    case Email => if EmailAt(cls, s, i) then "&#64;" else [s[i]]
  }

  function Edits(cls: Classes, p: Pass, s: string): seq<string> {
    seq(|s|, i requires 0 <= i < |s| => Edit(cls, p, s, i))
  }

  function Sub(cls: Classes, p: Pass, s: string): string {
    Join(Edits(cls, p, s))
  }

  /** Backslashes doubled, then the ampersands of entities. */
  function EscapeEntities(cls: Classes, text: string): string {
    Sub(cls, Entity, Sub(cls, Replace('\\', "\\\\"), text))
  }

  /** `<`, `>`, `{` and `}` as references. */
  function EscapeMarkup(cls: Classes, s: string): string {
    var out := Sub(cls, Replace('<', "&lt;"), s);
    var out := Sub(cls, Replace('>', "&gt;"), out);
    var out := Sub(cls, Replace('{', "&#123;"), out);
    Sub(cls, Replace('}', "&#125;"), out)
  }

  /** Brackets and backticks behind backslashes. */
  function EscapeBrackets(cls: Classes, s: string): string {
    var out := Sub(cls, Replace('[', "\\["), s);
    var out := Sub(cls, Replace(']', "\\]"), out);
    Sub(cls, Replace('`', "\\`"), out)
  }

  /** Emphasis and strike-through behind backslashes. */
  function EscapeEmphasis(cls: Classes, s: string): string {
    var out := Sub(cls, Replace('*', "\\*"), s);
    var out := Sub(cls, Replace('_', "\\_"), out);
    Sub(cls, Replace('~', "\\~"), out)
  }

  /** The patterns: a marker or keyword that opens the text, links and addresses. */
  function EscapePatterns(cls: Classes, s: string): string {
    var out := Sub(cls, BlockStart, s);
    var out := Sub(cls, Esm, out);
    var out := Sub(cls, Autolink, out);
    var out := Sub(cls, Www, out);
    Sub(cls, Email, out)
  }

  function Escape(cls: Classes, text: string): string {
    EscapePatterns(cls, EscapeEmphasis(cls, EscapeBrackets(cls, EscapeMarkup(cls, EscapeEntities(cls, text)))))
  }

  // ---------- reading the escapes back ----------

  /** The character references the escaper writes. */
  function RefOf(c: char): string {
    match c
    case '&' => "&amp;"
    case '<' => "&lt;"
    case '>' => "&gt;"
    case '{' => "&#123;"
    case '}' => "&#125;"
    case 'i' => "&#105;"
    case 'e' => "&#101;"
    case ':' => "&#58;"
    case '.' => "&#46;"
    case '@' => "&#64;"
    case _ => ""
  }

  const REFERABLE: set<char> := {'&', '<', '>', '{', '}', 'i', 'e', ':', '.', '@'}
  const ESCAPABLE: set<char> := {'\\', '[', ']', '`', '*', '_', '~', '#', '>', '+', '=', '|', '-', '.', ')'}

  /** The character whose reference stands at the start of `s`. */
  function Referenced(s: string): Option<char> {
    if "&amp;" <= s then Some('&')
    else if "&lt;" <= s then Some('<')
    else if "&gt;" <= s then Some('>')
    else if "&#123;" <= s then Some('{')
    else if "&#125;" <= s then Some('}')
    else if "&#105;" <= s then Some('i')
    else if "&#101;" <= s then Some('e')
    else if "&#58;" <= s then Some(':')
    else if "&#46;" <= s then Some('.')
    else if "&#64;" <= s then Some('@')
    else None
  }

  /** What Markdown shows: a backslash stands for the next character, a reference for its character. */
  function Decode(s: string): string
    decreases |s|
  {
    if s == "" then ""
    else if s[0] == '\\' && |s| > 1 then [s[1]] + Decode(s[2..])
    else match Referenced(s)
      case Some(c) => [c] + Decode(s[if 1 < |RefOf(c)| <= |s| then |RefOf(c)| else 1..])
      case None => [s[0]] + Decode(s[1..])
  }
}
