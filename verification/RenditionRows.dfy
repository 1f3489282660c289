/**
 Rendition rows and the transactions that change them (sau/renditions.py, sau/models.py).
 Instants are in seconds.
 */
module RenditionRows {
  import opened Options
  import opened Platforms

  /** The unique constraint of the table: one row per asset, platform and profile. */
  datatype RowId = RowId(asset: string, platform: Platform, profile: string)

  datatype RowState = Pending | Processing | Ready | Failed

  /** A transcoded file as the final probe sees it. */
  datatype Media = Media(size: nat, info: string)

  datatype Row = Row(state: RowState, storageKey: string, sizeBytes: nat, token: Option<string>,
                     lease: Option<int>, output: Option<Media>, error: Option<string>, completedAt: Option<int>)

  const LEASE := 2 * 3600

  const MEDIA_SIZE_LIMIT := 8 * 1024 * 1024 * 1024

  // ---- object keys -----------------------------------------------------------------------

  /** What follows the last colon. */
  function ProfileKey(profile: string): string {
    if profile == "" then ""
    else if profile[|profile| - 1] == ':' then ""
    else ProfileKey(profile[..|profile| - 1]) + [profile[|profile| - 1]]
  }

  function RenditionKey(asset: string, platform: Platform, profile: string): string {
    "renditions/" + asset + "/" + PlatformValue(platform) + "/" + ProfileKey(profile) + ".mp4"
  }

  function ClaimKey(id: RowId, token: string): string {
    RenditionKey(id.asset, id.platform, id.profile + ":" + token)
  }

  /** A claim token is a UUID: neither a colon nor a slash occurs in it. */
  predicate IsToken(token: string) {
    ':' !in token && '/' !in token
  }

  lemma {:induction false} ProfileKeyOfToken(prefix: string, token: string)
    requires ':' !in token
    ensures ProfileKey(prefix + ":" + token) == token
  {
    var s := prefix + ":" + token;
    if token == "" {
      assert s == prefix + ":";
    } else {
      var n := |token| - 1;
      assert s[..|s| - 1] == prefix + ":" + token[..n];
      ProfileKeyOfToken(prefix, token[..n]);
    }
  }

  /** Whatever the profile, a claim's key is made of its asset, its platform and its token. */
  lemma ClaimKeyIs(id: RowId, token: string)
    requires IsToken(token)
    ensures var platform := match id.platform
                            case FacebookReel => "facebook_reel"
                            case FacebookVideo => "facebook_video"
                            case TikTok => "tiktok";
            ClaimKey(id, token) == "renditions/" + id.asset + "/" + platform + "/" + token + ".mp4"
  {
    ProfileKeyOfToken(id.profile, token);
  }

  lemma SlashAfter(a: string, t: string, i: nat)
    ensures |a| < i <= |a| + |t| && (a + "/" + t)[i] == '/' ==> '/' in t
  {
  }

  lemma SlashSplit(a: string, t: string, b: string, u: string)
    requires a + "/" + t == b + "/" + u && '/' !in t && '/' !in u
    ensures t == u
  {
    var s := a + "/" + t;
    assert s[|a|] == '/' && s[|b|] == '/';
    SlashAfter(a, t, |b|);
    SlashAfter(b, u, |a|);
    assert t == s[|a| + 1..] && u == s[|b| + 1..];
  }

  lemma KeyEndsInToken(id: RowId, token: string) returns (before: string)
    requires IsToken(token)
    ensures ClaimKey(id, token) == before + "/" + (token + ".mp4") && '/' !in token + ".mp4"
  {
    ProfileKeyOfToken(id.profile, token);
    before := "renditions/" + id.asset + "/" + PlatformValue(id.platform);
    assert ClaimKey(id, token) == before + "/" + (token + ".mp4");
  }

  lemma SuffixStripped(s: string, t: string, suffix: string)
    requires s + suffix == t + suffix
    ensures s == t
  {
    assert |s| == |t|;
    assert s == (s + suffix)[..|s|];
    assert t == (t + suffix)[..|t|];
  }

  /** Two claims, of the same row or of different rows, never share an object key. */
  lemma ClaimKeyDeterminesToken(id: RowId, token: string, id': RowId, token': string)
    requires IsToken(token) && IsToken(token')
    requires ClaimKey(id, token) == ClaimKey(id', token')
    ensures token == token'
  {
    var a := KeyEndsInToken(id, token);
    var b := KeyEndsInToken(id', token');
    SlashSplit(a, token + ".mp4", b, token' + ".mp4");
    SuffixStripped(token, token', ".mp4");
  }

  // ---- transactions on one row -----------------------------------------------------------

  datatype ClaimOutcome = Claimed(row: Row) | AlreadyReady | InProgress

  predicate LiveAt(row: Row, now: int) {
    row.state == Processing && row.lease.Some? && row.lease.value > now
  }

  /** `_claim_preparation` once it holds the row, or has found there is none. */
  function Decide(row: Option<Row>, id: RowId, token: string, now: int): ClaimOutcome {
    if row.Some? && row.value.state == Ready then AlreadyReady
    else if row.Some? && LiveAt(row.value, now) then InProgress
    else
      var base := if row.Some? then row.value else Row(Pending, ClaimKey(id, token), 0, None, None, None, None, None);
      Claimed(base.(state := Processing, token := Some(token), lease := Some(now + LEASE),
                    storageKey := ClaimKey(id, token), error := None, completedAt := None))
  }

  /** The condition both conditional updates share. */
  predicate HoldsClaim(row: Row, token: string, now: int) {
    row.token == Some(token) && LiveAt(row, now)
  }

  /** `_mark_ready`'s update; no row is matched when the claim is stale. */
  function MarkReady(row: Row, token: string, now: int, key: string, media: Media): Option<Row> {
    if HoldsClaim(row, token, now) then
      Some(row.(state := Ready, storageKey := key, sizeBytes := media.size, error := None, token := None,
                lease := None, output := Some(media), completedAt := Some(now)))
    else None
  }

  /** `_mark_failed`'s update; the message is cut to 2000 characters. */
  function MarkFailed(row: Row, token: string, now: int, message: string): Option<Row> {
    if HoldsClaim(row, token, now) then
      Some(row.(state := Failed, error := Some(if |message| <= 2000 then message else message[..2000]),
                token := None, lease := None, completedAt := Some(now)))
    else None
  }
}
