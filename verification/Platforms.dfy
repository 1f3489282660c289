/** The publishing targets (sau/models.py). */
module Platforms {
  datatype Platform = FacebookReel | FacebookVideo | TikTok

  function PlatformValue(p: Platform): string {
    match p
    case FacebookReel => "facebook_reel"
    case FacebookVideo => "facebook_video"
    case TikTok => "tiktok"
  }
}
