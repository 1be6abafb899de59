/** Canonicalisation of watch links (`clean_youtube_url`): a link that starts
    with one of eight accepted prefixes followed by an 11-character video id is
    rewritten to the one canonical watch link for that id, dropping whatever
    followed the id; any other text is returned as it is. */
module YoutubeUrl {
  import opened Wrappers

  const IdLength := 11

  /** The character class `[a-zA-Z0-9_-]`. */
  predicate IdChar(c: char) {
    ('a' <= c <= 'z') || ('A' <= c <= 'Z') || ('0' <= c <= '9') || c == '_' || c == '-'
  }

  predicate ValidId(id: string) {
    |id| == IdLength && forall i :: 0 <= i < |id| ==> IdChar(id[i])
  }

  // The matcher, step by step as the pattern reads: scheme, optional host
  // prefix, path, id. Each optional or alternative part is tried greedily;
  // the alternatives start with different characters, so backtracking into
  // them never finds another match.

  function AfterScheme(u: string): Option<string> {
    if "https://" <= u then Some(u[8..])
    else if "http://" <= u then Some(u[7..])
    else None
  }

  function AfterWww(u: string): string {
    if "www." <= u then u[4..] else u
  }

  function AfterPath(u: string): Option<string> {
    if "youtube.com/watch?v=" <= u then Some(u[20..])
    else if "youtu.be/" <= u then Some(u[9..])
    else None
  }

  function TakeId(u: string): (r: Option<string>)
    ensures r.Some? ==> ValidId(r.value) && r.value <= u
  {
    if |u| >= IdLength && ValidId(u[..IdLength]) then Some(u[..IdLength]) else None
  }

  /** The id captured by the pattern's second group, when the pattern matches. */
  function VideoId(url: string): (r: Option<string>)
    ensures r.Some? ==> ValidId(r.value)
  {
    match AfterScheme(url)
    case None => None
    case Some(a) =>
      match AfterPath(AfterWww(a))
      case None => None
      case Some(b) => TakeId(b)
  }

  /** `clean_youtube_url`: the result is either the input itself or a canonical
      watch link carrying a valid id. */
  function CleanYoutubeUrl(url: string): (r: string)
    ensures r == url || (Canonical <= r && ValidId(r[|Canonical|..]))
  {
    match VideoId(url)
    case Some(id) => Canonical + id
    case None => url
  }

  // The pattern `https?://(?:www\.)?(?:youtube\.com/watch\?v=|youtu\.be/)`
  // accepts eight prefixes: a scheme, a host prefix and a path, in that order.
  const Schemes: seq<string> := ["https://", "http://"]
  const Hosts: seq<string> := ["www.", ""]
  const Paths: seq<string> := ["youtube.com/watch?v=", "youtu.be/"]

  function Prefix(i: nat, j: nat, m: nat): string
    requires i < 2 && j < 2 && m < 2
  {
    Schemes[i] + Hosts[j] + Paths[m]
  }

  /** `https://www.youtube.com/watch?v=`, the prefix of every cleaned link. */
  const Canonical := Prefix(0, 0, 0)

  /** `p` followed by a valid id starts `url`: one alternative of the anchored pattern. */
  predicate MatchesAt(url: string, p: string) {
    p <= url && |url| >= |p| + IdLength && ValidId(url[|p|..|p| + IdLength])
  }

  lemma PrefixSplit(p: string, u: string)
    requires p <= u
    ensures u == p + u[|p|..]
  {
    assert u == u[..|p|] + u[|p|..];
  }

  lemma SchemeStep(i: nat, t: string)
    requires i < |Schemes|
    requires t != [] && t[0] != '/'
    ensures AfterScheme(Schemes[i] + t) == Some(t)
  {
    var u := Schemes[i] + t;
    if i == 0 {
      assert u[..8] == "https://";
      assert u[8..] == t;
    } else {
      assert u[4] == ':';
      assert !("https://" <= u);
      assert u[..7] == "http://";
      assert u[7..] == t;
    }
  }

  lemma HostStep(j: nat, t: string)
    requires j < |Hosts|
    requires t != [] && t[0] == 'y'
    ensures AfterWww(Hosts[j] + t) == t
  {
    var u := Hosts[j] + t;
    if j == 0 {
      assert u[..4] == "www.";
      assert u[4..] == t;
    } else {
      assert u == t;
      assert u[0] == 'y';
    }
  }

  lemma PathStep(m: nat, t: string)
    requires m < |Paths|
    ensures AfterPath(Paths[m] + t) == Some(t)
  {
    var u := Paths[m] + t;
    if m == 0 {
      assert u[..20] == "youtube.com/watch?v=";
      assert u[20..] == t;
    } else {
      assert u[5] == '.';
      assert !("youtube.com/watch?v=" <= u);
      assert u[..9] == "youtu.be/";
      assert u[9..] == t;
    }
  }

  /** The matcher reads an accepted prefix and then looks at what follows it. */
  lemma VideoIdAfterPrefix(i: nat, j: nat, m: nat, t: string)
    requires i < 2 && j < 2 && m < 2
    ensures VideoId(Prefix(i, j, m) + t) == TakeId(t)
  {
    var sc, ho, pa := Schemes[i], Hosts[j], Paths[m];
    assert Prefix(i, j, m) + t == sc + (ho + (pa + t));
    assert ho + (pa + t) != [] && (ho + (pa + t))[0] != '/';
    SchemeStep(i, ho + (pa + t));
    assert (pa + t)[0] == 'y';
    HostStep(j, pa + t);
    PathStep(m, t);
  }

  lemma SchemeOf(u: string) returns (i: nat)
    requires AfterScheme(u).Some?
    ensures i < 2 && u == Schemes[i] + AfterScheme(u).value
  {
    i := if "https://" <= u then 0 else 1;
    PrefixSplit(Schemes[i], u);
  }

  lemma HostOf(u: string) returns (j: nat)
    ensures j < 2 && u == Hosts[j] + AfterWww(u)
  {
    j := if "www." <= u then 0 else 1;
    if j == 0 {
      PrefixSplit(Hosts[j], u);
    } else {
      assert Hosts[j] + u == u;
    }
  }

  lemma PathOf(u: string) returns (m: nat)
    requires AfterPath(u).Some?
    ensures m < 2 && u == Paths[m] + AfterPath(u).value
  {
    m := if "youtube.com/watch?v=" <= u then 0 else 1;
    PrefixSplit(Paths[m], u);
  }

  /** Whenever the matcher finds an id, one of the eight prefixes followed by
      that id starts the link. */
  lemma VideoIdFromPrefix(url: string) returns (i: nat, j: nat, m: nat)
    requires VideoId(url).Some?
    ensures i < 2 && j < 2 && m < 2
    ensures MatchesAt(url, Prefix(i, j, m))
    ensures VideoId(url).value == url[|Prefix(i, j, m)|..|Prefix(i, j, m)| + IdLength]
  {
    var a := AfterScheme(url).value;
    i := SchemeOf(url);
    var w := AfterWww(a);
    j := HostOf(a);
    var b := AfterPath(w).value;
    m := PathOf(w);
    assert VideoId(url) == TakeId(b);
    var sc, ho, pa := Schemes[i], Hosts[j], Paths[m];
    assert url == sc + (ho + (pa + b));
    Associate(sc, ho, pa, b);
    MatchesConcat(Prefix(i, j, m), b);
  }

  lemma Associate(x: string, y: string, z: string, t: string)
    ensures x + (y + (z + t)) == x + y + z + t
  {
  }

  lemma MatchesConcat(p: string, b: string)
    requires TakeId(b).Some?
    ensures MatchesAt(p + b, p)
    ensures (p + b)[|p|..|p| + IdLength] == TakeId(b).value
  {
    assert (p + b)[..|p|] == p;
    assert (p + b)[|p|..|p| + IdLength] == b[..IdLength];
  }

  /** A link made of an accepted prefix, a valid id and anything at all is
      cleaned to the canonical link of that id. */
  lemma CleanAccepted(i: nat, j: nat, m: nat, id: string, rest: string)
    requires i < 2 && j < 2 && m < 2
    requires ValidId(id)
    ensures CleanYoutubeUrl(Prefix(i, j, m) + id + rest) == Canonical + id
  {
    assert Prefix(i, j, m) + id + rest == Prefix(i, j, m) + (id + rest);
    VideoIdAfterPrefix(i, j, m, id + rest);
    assert (id + rest)[..IdLength] == id;
  }

  /** A link that no accepted prefix followed by a valid id starts is returned
      unchanged. */
  lemma CleanRejected(url: string)
    requires forall i, j, m :: i < 2 && j < 2 && m < 2 ==> !MatchesAt(url, Prefix(i, j, m))
    ensures CleanYoutubeUrl(url) == url
  {
    if VideoId(url).Some? {
      var i, j, m := VideoIdFromPrefix(url);
    }
  }

  /** Cleaning a cleaned link changes nothing. */
  lemma CleanIdempotent(url: string)
    ensures CleanYoutubeUrl(CleanYoutubeUrl(url)) == CleanYoutubeUrl(url)
  {
    match VideoId(url)
    case Some(id) =>
      CleanAccepted(0, 0, 0, id, []);
      assert Canonical + id + [] == Canonical + id;
    case None =>
  }
}
