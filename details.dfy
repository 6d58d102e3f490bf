/** The HTML page of the plugin's "About..." dialog (`_pluginDetails` of
    oscertstore/plugin.py). The page is a fixed frame around sections, each
    optional section present exactly when the field it shows is non-empty.
    Field values are inserted as they are, without HTML escaping. */
module PluginInfo {
  import OsCertStore

  /** The string fields of the plugin installer's record for this plugin. */
  datatype PluginMetadata = PluginMetadata(
    name: string,
    description: string,
    about: string,
    category: string,
    tags: string,
    homepage: string,
    tracker: string,
    codeRepository: string,
    authorName: string,
    authorEmail: string,
    versionInstalled: string,
    library: string,
    versionAvailable: string,
    zipRepository: string,
    changelog: string)

  predicate StartsWith(s: string, prefix: string)
  {
    |prefix| <= |s| && s[..|prefix|] == prefix
  }

  predicate EndsWith(s: string, suffix: string)
  {
    |suffix| <= |s| && s[|s| - |suffix|..] == suffix
  }

  predicate Contains(s: string, part: string)
  {
    exists i :: 0 <= i <= |s| && StartsWith(s[i..], part)
  }

  /** Stated over parameters rather than asserted inline: with the page's long
      string literals in place, the same fact exhausts the solver. */
  lemma StartsWithConcat(a: string, b: string)
    ensures StartsWith(a + b, a)
  {
    assert (a + b)[..|a|] == a;
  }

  /** The suffix counterpart of StartsWithConcat, generic for the same reason. */
  lemma EndsWithConcat(a: string, b: string)
    ensures EndsWith(a + b, b)
  {
    assert (a + b)[|a + b| - |b|..] == b;
  }

  /** Regroups a concatenation; generic so that the literals of the page stay out of
      the solver's reasoning when it is applied to them. */
  lemma Associative(a: string, b: string, c: string)
    ensures (a + b) + c == a + (b + c)
  {
  }

  lemma ContainsPrefix(s: string, rest: string)
    ensures Contains(s + rest, s)
  {
    StartsWithConcat(s, rest);
    assert (s + rest)[0..] == s + rest;
  }

  lemma ContainsPrepend(a: string, t: string, part: string)
    requires Contains(t, part)
    ensures Contains(a + t, part)
  {
    var i :| 0 <= i <= |t| && StartsWith(t[i..], part);
    assert (a + t)[|a| + i..] == t[i..];
  }

  lemma ContainsAppend(t: string, c: string, part: string)
    requires Contains(t, part)
    ensures Contains(t + c, part)
  {
    var i :| 0 <= i <= |t| && StartsWith(t[i..], part);
    assert (t + c)[i..] == t[i..] + c;
    assert (t[i..] + c)[..|part|] == t[i..][..|part|];
  }

  /** Python's `s.replace('\n', '<br/>')`. */
  function ReplaceNewlines(s: string): (r: string)
    ensures '\n' !in r
    ensures '\n' !in s ==> r == s
    ensures |r| >= |s|
    decreases |s|
  {
    if s == [] then []
    else (if s[0] == '\n' then "<br/>" else [s[0]]) + ReplaceNewlines(s[1..])
  }

  /** Replacing newlines works piecewise. */
  lemma {:induction false} ReplaceNewlinesConcat(a: string, b: string)
    ensures ReplaceNewlines(a + b) == ReplaceNewlines(a) + ReplaceNewlines(b)
    decreases |a|
  {
    if a != [] {
      assert (a + b)[0] == a[0];
      assert (a + b)[1..] == a[1..] + b;
      ReplaceNewlinesConcat(a[1..], b);
    } else {
      assert a + b == b;
    }
  }

  /** Every newline grows by four characters into `<br/>`, and nothing else changes length. */
  lemma {:induction false} ReplaceNewlinesLength(s: string)
    ensures |ReplaceNewlines(s)| == |s| + 4 * multiset(s)['\n']
    decreases |s|
  {
    if s != [] {
      assert s == [s[0]] + s[1..];
      assert multiset(s) == multiset([s[0]]) + multiset(s[1..]);
      ReplaceNewlinesLength(s[1..]);
    }
  }

  const STYLE := "<style>body, table {padding:0px; margin:0px; font-family:verdana; font-size: 1.1em;}</style>"
  const BODY_OPEN := "<body>"
  const TABLE_OPEN := "<table cellspacing=\"4\" width=\"100%\"><tr><td>"
  const TABLE_CLOSE := "</td></tr></table>"
  const BODY_CLOSE := "</body>"
  const MORE_INFO := OsCertStore.Tr("More info:")
  const CHANGELOG_HEADING := "<br/>" + "Changelog:<br/>"

  function TitleSection(p: PluginMetadata): string
  {
    "<h1>" + p.name + "</h1>"
  }

  function DescriptionSection(p: PluginMetadata): string
  {
    "<h3>" + p.description + "</h3>"
  }

  function AboutSection(p: PluginMetadata): string
  {
    if p.about != "" then ReplaceNewlines(p.about) else ""
  }

  function CategorySection(p: PluginMetadata): string
  {
    if p.category != "" then OsCertStore.Tr("Category") + ": " + p.category + " <br/>" else ""
  }

  function TagsSection(p: PluginMetadata): string
  {
    if p.tags != "" then OsCertStore.Tr("Tags") + ": " + p.tags + " <br/>" else ""
  }

  /** One link of the "More info" line. */
  function Link(url: string, caption: string): string
  {
    "<a href=\"" + url + "\">" + caption + "</a> &nbsp;"
  }

  function HomepageLink(p: PluginMetadata): string
  {
    if p.homepage != "" then Link(p.homepage, OsCertStore.Tr("homepage")) else ""
  }

  function TrackerLink(p: PluginMetadata): string
  {
    if p.tracker != "" then Link(p.tracker, OsCertStore.Tr("bug_tracker")) else ""
  }

  function RepositoryLink(p: PluginMetadata): string
  {
    if p.codeRepository != "" then Link(p.codeRepository, OsCertStore.Tr("code_repository")) else ""
  }

  predicate HasMoreInfo(p: PluginMetadata)
  {
    p.homepage != "" || p.tracker != "" || p.codeRepository != ""
  }

  function MoreInfoSection(p: PluginMetadata): string
  {
    if HasMoreInfo(p) then MORE_INFO + MoreInfoLinks(p) else ""
  }

  function MoreInfoLinks(p: PluginMetadata): string
  {
    HomepageLink(p) + TrackerLink(p) + RepositoryLink(p) + "<br/>"
  }

  function MailtoAuthor(email: string, name: string): string
  {
    OsCertStore.Tr("Author") + ": <a href=\"mailto:" + email + "\">" + name + "</a>" + "<br/><br/>"
  }

  function PlainAuthor(name: string): string
  {
    OsCertStore.Tr("Author") + ": " + name + "<br/><br/>"
  }

  function AuthorSection(p: PluginMetadata): string
  {
    if p.authorEmail != "" then MailtoAuthor(p.authorEmail, p.authorName)
    else if p.authorName != "" then PlainAuthor(p.authorName)
    else ""
  }

  /** The installer's "-1" means the installed version is unknown. */
  function ShownVersion(version: string): string
  {
    if version == "-1" then "?" else version
  }

  function InstalledSection(p: PluginMetadata): string
  {
    if p.versionInstalled != "" then
      OsCertStore.Tr("Installed version: " + ShownVersion(p.versionInstalled) + " (in " + p.library + ")<br/>")
    else ""
  }

  function AvailableSection(p: PluginMetadata): string
  {
    if p.versionAvailable != "" then
      OsCertStore.Tr("Available version: " + p.versionAvailable + " (in " + p.zipRepository + ")<br/>")
    else ""
  }

  function ChangelogSection(p: PluginMetadata): string
  {
    if p.changelog != "" then
      "<br/>" + ReplaceNewlines(OsCertStore.Tr("Changelog:<br/>" + p.changelog + " <br/>"))
    else ""
  }

  /** The sections above the "More info" line. */
  function UpperContent(p: PluginMetadata): string
  {
    TitleSection(p) + DescriptionSection(p) + AboutSection(p) + "<br/><br/>"
      + CategorySection(p) + TagsSection(p)
  }

  /** The sections below the "More info" line. */
  function LowerContent(p: PluginMetadata): string
  {
    "<br/>" + AuthorSection(p) + InstalledSection(p) + AvailableSection(p) + ChangelogSection(p)
  }

  /** Everything between the opening of the table cell and its closing. */
  function Content(p: PluginMetadata): string
  {
    UpperContent(p) + MoreInfoSection(p) + LowerContent(p)
  }

  /** `_pluginDetails`: the HTML shown by the about dialog. It always opens
      with the style sheet, the body and the table cell, holds the content
      sections, and always closes the table and the body. */
  function PluginDetails(p: PluginMetadata): (html: string)
    ensures StartsWith(html, STYLE + BODY_OPEN + TABLE_OPEN)
    ensures EndsWith(html, TABLE_CLOSE + BODY_CLOSE)
    ensures |html| == |STYLE + BODY_OPEN + TABLE_OPEN| + |Content(p)| + |TABLE_CLOSE + BODY_CLOSE|
  {
    var head, content, tail := STYLE + BODY_OPEN + TABLE_OPEN, Content(p), TABLE_CLOSE + BODY_CLOSE;
    Associative(head + content, TABLE_CLOSE, BODY_CLOSE);
    EndsWithConcat(head + content, tail);
    Associative(head, content, tail);
    StartsWithConcat(head, content + tail);
    head + content + TABLE_CLOSE + BODY_CLOSE
  }

  /** Each optional section is present exactly when its field is non-empty. */
  lemma OptionalSections(p: PluginMetadata)
    ensures AboutSection(p) != "" <==> p.about != ""
    ensures CategorySection(p) != "" <==> p.category != ""
    ensures TagsSection(p) != "" <==> p.tags != ""
    ensures HomepageLink(p) != "" <==> p.homepage != ""
    ensures TrackerLink(p) != "" <==> p.tracker != ""
    ensures RepositoryLink(p) != "" <==> p.codeRepository != ""
    ensures InstalledSection(p) != "" <==> p.versionInstalled != ""
    ensures AvailableSection(p) != "" <==> p.versionAvailable != ""
    ensures ChangelogSection(p) != "" <==> p.changelog != ""
  {
  }

  /** The "More info:" line is there exactly when some link is, and then it
      appears in the page. */
  lemma MoreInfoLine(p: PluginMetadata)
    ensures MoreInfoSection(p) != "" <==> HasMoreInfo(p)
    ensures HasMoreInfo(p) ==> StartsWith(MoreInfoSection(p), MORE_INFO)
    ensures HasMoreInfo(p) ==> Contains(PluginDetails(p), MORE_INFO)
  {
    if HasMoreInfo(p) {
      StartsWithConcat(MORE_INFO, MoreInfoLinks(p));
      ContainsPrefix(MORE_INFO, MoreInfoLinks(p));
      ContainsPrepend(UpperContent(p), MoreInfoSection(p), MORE_INFO);
      ContainsAppend(UpperContent(p) + MoreInfoSection(p), LowerContent(p), MORE_INFO);
      ContainsPrepend(STYLE + BODY_OPEN + TABLE_OPEN, Content(p), MORE_INFO);
      ContainsAppend(STYLE + BODY_OPEN + TABLE_OPEN + Content(p), TABLE_CLOSE, MORE_INFO);
      ContainsAppend(STYLE + BODY_OPEN + TABLE_OPEN + Content(p) + TABLE_CLOSE, BODY_CLOSE, MORE_INFO);
    }
  }

  /** The author part takes one of three forms: a mailto link when an e-mail
      is known, else the plain name when one is known, else nothing. */
  lemma AuthorForms(p: PluginMetadata)
    ensures p.authorEmail != "" ==> AuthorSection(p) == MailtoAuthor(p.authorEmail, p.authorName)
    ensures p.authorEmail == "" && p.authorName != "" ==> AuthorSection(p) == PlainAuthor(p.authorName)
    ensures AuthorSection(p) == "" <==> p.authorEmail == "" && p.authorName == ""
    ensures AuthorSection(p) != "" ==> StartsWith(AuthorSection(p), "Author: ")
  {
  }

  /** An installed version of "-1" is shown as "?"; any other is shown as it is. */
  lemma InstalledVersionShown(p: PluginMetadata)
    ensures p.versionInstalled == "-1" ==>
              InstalledSection(p) == "Installed version: ? (in " + p.library + ")<br/>"
    ensures p.versionInstalled != "" && p.versionInstalled != "-1" ==>
              InstalledSection(p) == "Installed version: " + p.versionInstalled + " (in " + p.library + ")<br/>"
  {
  }

  /** Newlines of the description text and of the changelog become `<br/>`. */
  lemma NewlinesBecomeBreaks(p: PluginMetadata)
    ensures '\n' !in AboutSection(p) && '\n' !in ChangelogSection(p)
    ensures p.about != "" ==> AboutSection(p) == ReplaceNewlines(p.about)
  {
  }

  /** Text without newlines around `t` survives the replacement unchanged. */
  lemma ReplaceNewlinesAround(h: string, t: string, c: string)
    requires '\n' !in h && '\n' !in c
    ensures ReplaceNewlines(h + t + c) == h + ReplaceNewlines(t) + c
  {
    ReplaceNewlinesConcat(h + t, c);
    ReplaceNewlinesConcat(h, t);
  }

  /** The replacement over the formatted changelog line touches only the
      changelog text itself. */
  lemma ChangelogBreaks(p: PluginMetadata)
    requires p.changelog != ""
    ensures ChangelogSection(p) == CHANGELOG_HEADING + ReplaceNewlines(p.changelog) + " <br/>"
  {
    var replaced := ReplaceNewlines(p.changelog);
    ReplaceNewlinesAround("Changelog:<br/>", p.changelog, " <br/>");
    assert ChangelogSection(p) == "<br/>" + ("Changelog:<br/>" + replaced + " <br/>");
    Associative("<br/>", "Changelog:<br/>" + replaced, " <br/>");
    Associative("<br/>", "Changelog:<br/>", replaced);
  }
}
