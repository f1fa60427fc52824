/**
 * Classifying a link by its host name: an icon chosen by the first matching
 * substring rule, and a display name taken from the second dot-separated
 * label. The URL parser is outside the model: each classifier takes the
 * parsed host name, `None` when the URL does not parse (where the parser
 * throws).
 */
module PlatformIcons {
  import opened Schema

  datatype Icon = GitHub | X | Instagram | LinkedIn | YouTube | TikTok | Facebook | Medium | Twitch | Globe

  /** `toLowerCase` on one character (ASCII letters only). */
  function LowerChar(c: char): char {
    if 'A' <= c <= 'Z' then (c as int + 32) as char else c
  }

  /** `toLowerCase` on a host name: maps every character, keeping the length. */
  function ToLower(s: string): (r: string)
    ensures |r| == |s|
    ensures forall i :: 0 <= i < |s| ==> r[i] == LowerChar(s[i])
    ensures forall i :: 0 <= i < |r| ==> !('A' <= r[i] <= 'Z')
  {
    if s == [] then [] else [LowerChar(s[0])] + ToLower(s[1..])
  }

  /** Lower-casing twice is lower-casing once. */
  lemma ToLowerIdempotent(s: string)
    ensures ToLower(ToLower(s)) == ToLower(s)
  {
  }

  /** The reference meaning of `s.includes(pat)`: pat occurs at some offset. */
  ghost predicate Occurs(s: string, pat: string) {
    exists i :: OccursAt(s, pat, i)
  }

  ghost predicate OccursAt(s: string, pat: string, i: int) {
    0 <= i <= |s| - |pat| && s[i..i + |pat|] == pat
  }

  /** `s.includes(pat)`, by scanning the offsets from the left. */
  function Includes(s: string, pat: string): (r: bool)
    ensures r ==> |pat| <= |s|
    decreases |s|
  {
    if |s| < |pat| then false
    else s[..|pat|] == pat || Includes(s[1..], pat)
  }

  /** The scan finds pat exactly when pat occurs. */
  lemma {:induction false} IncludesIffOccurs(s: string, pat: string)
    ensures Includes(s, pat) <==> Occurs(s, pat)
    decreases |s|
  {
    if |s| < |pat| {
    } else if s[..|pat|] == pat {
      assert OccursAt(s, pat, 0);
    } else {
      assert s != [];
      var t := s[1..];
      IncludesIffOccurs(t, pat);
      if Occurs(t, pat) {
        var i :| OccursAt(t, pat, i);
        assert OccursAt(s, pat, i + 1);
      }
      if Occurs(s, pat) {
        var i :| OccursAt(s, pat, i);
        assert s[0..0 + |pat|] == s[..|pat|];
        assert i != 0;
        assert OccursAt(t, pat, i - 1);
      }
    }
  }

  /** A pattern holding a character the string lacks does not occur in it. */
  lemma AbsentChar(s: string, pat: string, j: nat)
    requires j < |pat| && pat[j] !in s
    ensures !Occurs(s, pat)
  {
    forall i | 0 <= i <= |s| - |pat| ensures !OccursAt(s, pat, i) {
      assert s[i..i + |pat|][j] == s[i + j];
      assert s[i + j] in s;
    }
  }

  /** The icon of a lower-cased host name, by the rule chain. */
  function PlatformIcon(domain: string): Icon {
    if Includes(domain, "github") then GitHub
    else if Includes(domain, "twitter") || Includes(domain, "x.com") then X
    else if Includes(domain, "instagram") then Instagram
    else if Includes(domain, "linkedin") then LinkedIn
    else if Includes(domain, "youtube") then YouTube
    else if Includes(domain, "tiktok") then TikTok
    else if Includes(domain, "facebook") then Facebook
    else if Includes(domain, "medium") then Medium
    else if Includes(domain, "twitch") then Twitch
    else Globe
  }

  /** A rule: the icon of a host name in which one of the patterns occurs. */
  datatype Rule = Rule(patterns: seq<string>, icon: Icon)

  /** The rules, in the order they are tried. */
  const Rules := [
    Rule(["github"], GitHub),
    Rule(["twitter", "x.com"], X),
    Rule(["instagram"], Instagram),
    Rule(["linkedin"], LinkedIn),
    Rule(["youtube"], YouTube),
    Rule(["tiktok"], TikTok),
    Rule(["facebook"], Facebook),
    Rule(["medium"], Medium),
    Rule(["twitch"], Twitch)
  ]

  ghost predicate Matches(r: Rule, domain: string) {
    exists p :: p in r.patterns && Occurs(domain, p)
  }

  /** The reference definition: the icon of the first matching rule from k on, else Globe. */
  ghost function FirstMatch(rules: seq<Rule>, domain: string, k: nat): Icon
    decreases |rules| - k
  {
    if k >= |rules| then Globe
    else if Matches(rules[k], domain) then rules[k].icon
    else FirstMatch(rules, domain, k + 1)
  }

  lemma MatchesOne(p: string, icon: Icon, domain: string)
    ensures Matches(Rule([p], icon), domain) <==> Includes(domain, p)
  {
    IncludesIffOccurs(domain, p);
    assert p in [p];
  }

  lemma MatchesTwo(p: string, q: string, icon: Icon, domain: string)
    ensures Matches(Rule([p, q], icon), domain) <==> Includes(domain, p) || Includes(domain, q)
  {
    IncludesIffOccurs(domain, p);
    IncludesIffOccurs(domain, q);
    assert p in [p, q] && q in [p, q];
  }

  /** The rule chain picks the icon of the first rule whose pattern occurs. */
  lemma PlatformIconIsFirstMatch(domain: string)
    ensures PlatformIcon(domain) == FirstMatch(Rules, domain, 0)
  {
    MatchesOne("github", GitHub, domain);
    MatchesTwo("twitter", "x.com", X, domain);
    MatchesOne("instagram", Instagram, domain);
    MatchesOne("linkedin", LinkedIn, domain);
    MatchesOne("youtube", YouTube, domain);
    MatchesOne("tiktok", TikTok, domain);
    MatchesOne("facebook", Facebook, domain);
    MatchesOne("medium", Medium, domain);
    MatchesOne("twitch", Twitch, domain);
  }

  /** The fallback is returned exactly when no pattern of any rule occurs. */
  lemma GlobeIffNoRuleMatches(domain: string)
    ensures PlatformIcon(domain) == Globe <==> forall k :: 0 <= k < |Rules| ==> !Matches(Rules[k], domain)
  {
    PlatformIconIsFirstMatch(domain);
    FirstMatchGlobe(Rules, domain, 0);
  }

  /** With no rule whose icon is Globe, Globe means that no rule from k on matches. */
  lemma {:induction false} FirstMatchGlobe(rules: seq<Rule>, domain: string, k: nat)
    requires forall j :: 0 <= j < |rules| ==> rules[j].icon != Globe
    ensures FirstMatch(rules, domain, k) == Globe <==> forall j :: k <= j < |rules| ==> !Matches(rules[j], domain)
    decreases |rules| - k
  {
    if k < |rules| {
      FirstMatchGlobe(rules, domain, k + 1);
    }
  }

  /** `getPlatformIcon(url)`, given the URL's host name; `None` where it throws. */
  function GetPlatformIcon(hostname: Option<string>): (r: Option<Icon>)
    ensures r.Some? <==> hostname.Some?
    ensures r.Some? ==> r.value == PlatformIcon(ToLower(hostname.value))
  {
    match hostname
    case None => None
    case Some(h) => Some(PlatformIcon(ToLower(h)))
  }

  /** Matching ignores the case of the host name. */
  lemma GetPlatformIconIgnoresCase(h: string)
    ensures GetPlatformIcon(Some(h)) == GetPlatformIcon(Some(ToLower(h)))
  {
    ToLowerIdempotent(h);
  }

  /** Matching is by substring: "box.com" contains "x.com". */
  lemma SubstringNotSuffix()
    ensures PlatformIcon("box.com") == X
  {
    var d := "box.com";
    assert OccursAt(d, "x.com", 2);
    IncludesIffOccurs(d, "x.com");
    IncludesIffOccurs(d, "github");
    IncludesIffOccurs(d, "twitter");
    assert "github"[0] == 'g' && 'g' !in d;
    AbsentChar(d, "github", 0);
    assert "twitter"[0] == 't' && 't' !in d;
    AbsentChar(d, "twitter", 0);
  }

  /** `s.split(sep)`: the pieces between the separators, at least one. */
  function Split(s: string, sep: char): (r: seq<string>)
    ensures |r| >= 1
    ensures forall i :: 0 <= i < |r| ==> sep !in r[i]
  {
    if s == [] then [""]
    else
      var rest := Split(s[1..], sep);
      if s[0] == sep then [""] + rest
      else [[s[0]] + rest[0]] + rest[1..]
  }

  /** `labels.join(sep)`. */
  function Join(labels: seq<string>, sep: char): string
    requires |labels| >= 1
  {
    if |labels| == 1 then labels[0] else labels[0] + [sep] + Join(labels[1..], sep)
  }

  /** Joining the pieces gives back the string. */
  lemma {:induction false} JoinSplit(s: string, sep: char)
    ensures Join(Split(s, sep), sep) == s
  {
    if s != [] {
      JoinSplit(s[1..], sep);
      var rest := Split(s[1..], sep);
      if s[0] != sep {
        if |rest| == 1 {
        } else {
          assert ([[s[0]] + rest[0]] + rest[1..])[1..] == rest[1..];
        }
      }
    }
  }

  /** Splitting a join of separator-free labels gives back the labels. */
  lemma {:induction false} SplitJoin(labels: seq<string>, sep: char)
    requires |labels| >= 1
    requires forall i :: 0 <= i < |labels| ==> sep !in labels[i]
    ensures Split(Join(labels, sep), sep) == labels
  {
    if |labels| == 1 {
      SplitNoSep(labels[0], sep);
    } else {
      SplitJoin(labels[1..], sep);
      SplitLabel(labels[0], Join(labels[1..], sep), sep);
      assert [labels[0]] + labels[1..] == labels;
    }
  }

  /** A string without the separator is a single piece. */
  lemma {:induction false} SplitNoSep(piece: string, sep: char)
    requires sep !in piece
    ensures Split(piece, sep) == [piece]
  {
    if piece != [] {
      SplitNoSep(piece[1..], sep);
      assert [piece[0]] + piece[1..] == piece;
    }
  }

  /** A separator-free label in front of the separator and a tail. */
  lemma {:induction false} SplitLabel(piece: string, tail: string, sep: char)
    requires sep !in piece
    ensures Split(piece + [sep] + tail, sep) == [piece] + Split(tail, sep)
  {
    if piece != [] {
      SplitLabel(piece[1..], tail, sep);
      assert (piece + [sep] + tail)[1..] == piece[1..] + [sep] + tail;
      assert [piece[0]] + piece[1..] == piece;
    } else {
      assert piece + [sep] + tail == [sep] + tail;
    }
  }

  /** The display name of a lower-cased host name. */
  function PlatformName(domain: string): (r: string)
    ensures r != [] && '.' !in r
  {
    var labels := Split(domain, '.');
    if |labels| >= 2 && labels[1] != "" then labels[1] else "website"
  }

  /** The name is the second label when there is a non-empty one, else "website". */
  lemma PlatformNameIsSecondLabel(labels: seq<string>)
    requires |labels| >= 1
    requires forall i :: 0 <= i < |labels| ==> '.' !in labels[i]
    ensures PlatformName(Join(labels, '.')) == if |labels| >= 2 && labels[1] != "" then labels[1] else "website"
  {
    SplitJoin(labels, '.');
  }

  /**
   * The second label is taken literally, not the registrable name: for
   * "www.github.com" it is "github", for "github.com" it is "com".
   */
  lemma PlatformNameOfSubdomain(sub: string, name: string, rest: string)
    requires '.' !in sub && '.' !in name && name != ""
    ensures PlatformName(sub + "." + name + "." + rest) == name
  {
    SplitLabel(sub, name + "." + rest, '.');
    SplitLabel(name, rest, '.');
    assert sub + "." + name + "." + rest == sub + ['.'] + (name + ['.'] + rest);
  }

  lemma PlatformNameOfDomain(name: string, tld: string)
    requires '.' !in name && '.' !in tld && tld != ""
    ensures PlatformName(name + "." + tld) == tld
  {
    SplitLabel(name, tld, '.');
    SplitNoSep(tld, '.');
  }

  /** A host name without dots gets the fallback name. */
  lemma PlatformNameOfSingleLabel(host: string)
    requires '.' !in host
    ensures PlatformName(host) == "website"
  {
    SplitNoSep(host, '.');
  }

  /** `getPlatformName(url)`, given the URL's host name; `None` where it throws. */
  function GetPlatformName(hostname: Option<string>): (r: Option<string>)
    ensures r.Some? <==> hostname.Some?
    ensures r.Some? ==> r.value != [] && '.' !in r.value
  {
    match hostname
    case None => None
    case Some(h) => Some(PlatformName(ToLower(h)))
  }
}
