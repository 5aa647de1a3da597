/** The project build-file patch that adds Kakao's Maven repository (plugins/withKakaoMavenRepo.js).
    The pattern `allprojects\s*\{[\s\S]*?repositories\s*\{` is matched by hand: the leftmost
    `allprojects {` that some `repositories {` follows, and the first such `repositories {`. */
module KakaoMavenRepoPlugin {
  import opened Common
  import opened Text

  const KakaoHost: string := "devrepo.kakao.com"
  const RepoPrefix: string := "maven { url 'https://"
  const RepoSuffix: string := "/nexus/content/groups/public/' }"
  const KakaoMavenRepo: string := RepoPrefix + KakaoHost + RepoSuffix
  const Indent: string := "\n    "
  /** What the replacement adds after the matched text. */
  const Insertion: string := Indent + KakaoMavenRepo
  const AllProjects: string := "allprojects"
  const Repositories: string := "repositories"

  /** `s[i..e]` is `word`, then whitespace, then an opening brace. */
  predicate OpensAt(s: string, i: nat, e: nat, word: string) {
    && OccursAt(s, i, word) && i + |word| < e <= |s| && s[e - 1] == '{'
    && forall k :: i + |word| <= k < e - 1 ==> IsWhitespace(s[k])
  }

  /** `word\s*\{` at index `i`: where that match ends, if it matches there. */
  function OpenAt(s: string, i: nat, word: string): (r: Option<nat>)
    ensures r.Some? ==> OpensAt(s, i, r.value, word)
    ensures forall e: nat :: OpensAt(s, i, e, word) ==> r == Some(e)
  {
    if !OccursAt(s, i, word) then None
    else
      var e := SkipWhitespace(s, i + |word|);
      if e < |s| && s[e] == '{' then Some(e + 1) else None
  }

  /** The first index at or after `k` where `word\s*\{` matches, with the end of that match. */
  function FirstOpen(s: string, word: string, k: nat): (r: Option<(nat, nat)>)
    ensures r.Some? ==> k <= r.value.0 && OpenAt(s, r.value.0, word) == Some(r.value.1)
    ensures r.Some? ==> forall j :: k <= j < r.value.0 ==> OpenAt(s, j, word).None?
    ensures r.None? ==> forall j :: k <= j ==> OpenAt(s, j, word).None?
    decreases |s| + 1 - k
  {
    if k > |s| then None
    else match OpenAt(s, k, word)
      case Some(e) => Some((k, e))
      case None => FirstOpen(s, word, k + 1)
  }

  /** A later `allprojects {` cannot begin inside an earlier one, so it also ends later. */
  lemma {:induction false} LaterOpenEndsLater(s: string, p0: nat, p: nat)
    requires OpenAt(s, p0, AllProjects).Some? && OpenAt(s, p, AllProjects).Some? && p0 <= p
    ensures OpenAt(s, p0, AllProjects).value <= OpenAt(s, p, AllProjects).value
  {
    var a0 := OpenAt(s, p0, AllProjects).value;
    if p0 < p < a0 {
      assert s[p] == 'a' by {
        assert s[p..p + |AllProjects|] == AllProjects;
        assert s[p] == s[p..p + |AllProjects|][0];
      }
    }
  }

  /** The match of the pattern: where `allprojects {` starts, where `repositories {` starts, and
      where the match ends. It starts at the leftmost place any match could start, and is the
      shortest match from there; there is none exactly when no `allprojects {` has a
      `repositories {` after it. */
  function Match(s: string): (r: Option<(nat, nat, nat)>)
    ensures r.Some? ==>
      var (p, q, e) := r.value;
      && OpenAt(s, p, AllProjects).Some? && OpenAt(s, p, AllProjects).value <= q && OpenAt(s, q, Repositories) == Some(e)
      && (forall p': nat :: p' < p ==> OpenAt(s, p', AllProjects).None?)
      && (forall q': nat :: OpenAt(s, p, AllProjects).value <= q' < q ==> OpenAt(s, q', Repositories).None?)
    ensures r.None? <==> forall p: nat, q: nat :: OpenAt(s, p, AllProjects).Some? && OpenAt(s, p, AllProjects).value <= q ==>
      OpenAt(s, q, Repositories).None?
  {
    match FirstOpen(s, AllProjects, 0)
    case None => None
    case Some((p, a)) =>
      match FirstOpen(s, Repositories, a)
      case Some((q, e)) => Some((p, q, e))
      case None =>
        assert forall p': nat, q: nat :: OpenAt(s, p', AllProjects).Some? && OpenAt(s, p', AllProjects).value <= q ==>
          OpenAt(s, q, Repositories).None? by {
          forall p', q | OpenAt(s, p', AllProjects).Some? && OpenAt(s, p', AllProjects).value <= q
            ensures OpenAt(s, q, Repositories).None?
          {
            LaterOpenEndsLater(s, p, p');
          }
        }
        None
  }

  /** The new project build file: unchanged when the repository is already mentioned or the block
      is not found; otherwise the repository line right after the matched text, everything else as
      it was. */
  function WithKakaoMavenRepo(contents: string): (r: string)
    ensures Contains(contents, KakaoHost) ==> r == contents
    ensures !Contains(contents, KakaoHost) && Match(contents).None? ==> r == contents
    ensures !Contains(contents, KakaoHost) && Match(contents).Some? ==>
      r == contents[..Match(contents).value.2] + Insertion + contents[Match(contents).value.2..]
  {
    if Contains(contents, KakaoHost) then contents
    else match Match(contents)
      case None => contents
      case Some((_, _, e)) => InsertAt(contents, e, Insertion)
  }

  /** The inserted line names the host that the presence check looks for. */
  lemma InsertionNamesHost()
    ensures Contains(Insertion, KakaoHost)
  {
    ContainsPiece(Indent + RepoPrefix, KakaoHost, RepoSuffix);
    assert Insertion == Indent + RepoPrefix + KakaoHost + RepoSuffix;
  }

  /** Patching a patched file changes nothing. */
  lemma WithKakaoMavenRepoIdempotent(contents: string)
    ensures WithKakaoMavenRepo(WithKakaoMavenRepo(contents)) == WithKakaoMavenRepo(contents)
  {
    var r := WithKakaoMavenRepo(contents);
    if !Contains(contents, KakaoHost) && Match(contents).Some? {
      var e := Match(contents).value.2;
      ContainsPiece(contents[..e], Insertion, contents[e..]);
      InsertionNamesHost();
      ContainsTransitive(r, Insertion, KakaoHost);
    }
  }
}
