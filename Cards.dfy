/** The fields one repository card shows (renderRepos, per repository). */
module Cards {
  import opened Wrappers
  import opened Repos

  /** JavaScript truthiness of an optional string: present and not empty. */
  predicate Truthy(o: Option<string>)
  {
    o.Some? && o.value != ""
  }

  const DefaultColor: string := "#8A2BE2"

  /** LANG_COLORS, including its own 'default' entry. */
  const LangColors: map<string, string> := map[
    "Python" := "#3572A5", "JavaScript" := "#f1e05a", "TypeScript" := "#2b7489",
    "Jupyter Notebook" := "#DA5B0B", "HTML" := "#e34c26", "CSS" := "#563d7c",
    "Shell" := "#89e051", "Go" := "#00ADD8", "Rust" := "#dea584", "C++" := "#f34b7d",
    "Java" := "#b07219", "default" := DefaultColor]

  const NoDescription: string := "No description provided."

  /** U+200B ZERO WIDTH SPACE, a line-break opportunity inserted after each hyphen. */
  const ZeroWidthSpace: char := '\U{200B}'

  /** LANG_COLORS[repo.language] || LANG_COLORS['default'] */
  function LangColor(language: Option<string>): (c: string)
    ensures language.Some? && language.value in LangColors ==> c == LangColors[language.value]
    ensures language.None? || language.value !in LangColors ==> c == DefaultColor
  {
    match language
    case Some(l) => if l in LangColors then LangColors[l] else LangColors["default"]
    case None => LangColors["default"]
  }

  /** repo.description || 'No description provided.' */
  function Description(d: Option<string>): (text: string)
    ensures text != ""
    ensures Truthy(d) ==> text == d.value
    ensures !Truthy(d) ==> text == NoDescription
  {
    if Truthy(d) then d.value else NoDescription
  }

  /** How often `c` occurs in `s`. */
  function Occurrences(c: char, s: string): nat
  {
    if s == [] then 0 else (if s[0] == c then 1 else 0) + Occurrences(c, s[1..])
  }

  /** repo.name.replace(/-/g, '-​'): each hyphen gets a zero-width space after it. */
  function DisplayName(name: string): (r: string)
    ensures |r| == |name| + Occurrences('-', name)
    ensures forall i :: 0 <= i < |r| && r[i] == '-' ==> i + 1 < |r| && r[i + 1] == ZeroWidthSpace
  {
    if name == [] then []
    else
      var rest := DisplayName(name[1..]);
      if name[0] == '-' then
        var r := ['-', ZeroWidthSpace] + rest;
        assert forall i :: 2 <= i < |r| ==> r[i] == rest[i - 2];
        r
      else
        var r := [name[0]] + rest;
        assert forall i :: 1 <= i < |r| ==> r[i] == rest[i - 1];
        r
  }

  /** Removes every zero-width space. */
  function StripBreaks(s: string): (r: string)
    ensures ZeroWidthSpace !in r
    ensures |r| == |s| - Occurrences(ZeroWidthSpace, s)
  {
    if s == [] then [] else (if s[0] == ZeroWidthSpace then [] else [s[0]]) + StripBreaks(s[1..])
  }

  /** Removing the zero-width spaces gives back the repository's name (names never hold U+200B). */
  lemma {:induction false} StripDisplayName(name: string)
    requires ZeroWidthSpace !in name
    ensures StripBreaks(DisplayName(name)) == name
  {
    if name != [] {
      StripDisplayName(name[1..]);
      var rest := DisplayName(name[1..]);
      if name[0] == '-' {
        assert (['-', ZeroWidthSpace] + rest)[1..] == [ZeroWidthSpace] + rest;
        assert ([ZeroWidthSpace] + rest)[1..] == rest;
      } else {
        assert ([name[0]] + rest)[1..] == rest;
      }
      assert name == [name[0]] + name[1..];
    }
  }

  /**
   * The rewrite keeps every hyphen and adds exactly one zero-width space per hyphen,
   * so the display name holds as many hyphens as the name and that many more U+200B.
   */
  lemma {:induction false} DisplayNameCounts(name: string)
    ensures Occurrences('-', DisplayName(name)) == Occurrences('-', name)
    ensures Occurrences(ZeroWidthSpace, DisplayName(name)) == Occurrences(ZeroWidthSpace, name) + Occurrences('-', name)
  {
    if name != [] {
      DisplayNameCounts(name[1..]);
      var rest := DisplayName(name[1..]);
      if name[0] == '-' {
        assert (['-', ZeroWidthSpace] + rest)[1..] == [ZeroWidthSpace] + rest;
        assert ([ZeroWidthSpace] + rest)[1..] == rest;
      } else {
        assert ([name[0]] + rest)[1..] == rest;
      }
    }
  }

  /** The language badge: the language's name and its colour. */
  datatype LangBadge = LangBadge(language: string, color: string)

  /** What one card carries; the markup around these fields is presentation. */
  datatype Card = Card(
    name: string,
    url: string,
    description: string,
    badge: Option<LangBadge>,
    stars: int,
    liveLink: Option<string>)

  /** The card built for one repository. */
  function CardOf(repo: Repo): Card
  {
    Card(
      DisplayName(repo.name),
      repo.htmlUrl,
      Description(repo.description),
      if Truthy(repo.language) then Some(LangBadge(repo.language.value, LangColor(repo.language))) else None,
      repo.stars,
      if Truthy(repo.homepage) then Some(repo.homepage.value) else None)
  }

  /**
   * A card links to the repository and shows its stars; the description falls back
   * to the placeholder; the language badge appears only for a non-empty language,
   * coloured from the table; the live-demo link appears exactly when the homepage is
   * non-empty; and a name without U+200B is given back by the displayed name once
   * the zero-width spaces are removed.
   */
  lemma CardFields(repo: Repo)
    ensures var c := CardOf(repo);
      && c.url == repo.htmlUrl && c.stars == repo.stars
      && c.description == (if Truthy(repo.description) then repo.description.value else NoDescription)
      && (c.badge.Some? <==> Truthy(repo.language))
      && (c.badge.Some? ==> c.badge.value.language == repo.language.value)
      && (c.badge.Some? && repo.language.value in LangColors ==> c.badge.value.color == LangColors[repo.language.value])
      && (c.badge.Some? && repo.language.value !in LangColors ==> c.badge.value.color == DefaultColor)
      && (c.liveLink.Some? <==> Truthy(repo.homepage))
      && (c.liveLink.Some? ==> c.liveLink.value == repo.homepage.value)
      && (ZeroWidthSpace !in repo.name ==> StripBreaks(c.name) == repo.name)
      && |c.name| == |repo.name| + Occurrences('-', repo.name)
  {
    if ZeroWidthSpace !in repo.name {
      StripDisplayName(repo.name);
    }
  }
}
