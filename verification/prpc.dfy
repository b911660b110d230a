/** The pure parts of services/p-rpc.service.ts: pubkey shortening, the lookup
    inside findPNode, and the service's own copies of the formatting helpers. */
module PRpc {

  import opened Wrappers
  import opened Text
  import opened Model
  import Utils

  /** Where `String.prototype.slice` puts a position on a string of length `len`:
      a negative position counts from the end, and both ends are clamped. */
  function JsIndex(pos: int, len: nat): (k: nat)
    ensures k <= len
    ensures 0 <= pos <= len ==> k == pos
    ensures pos < 0 && len + pos >= 0 ==> k == len + pos
  {
    if pos < 0 then (if len + pos < 0 then 0 else len + pos)
    else if pos > len then len
    else pos
  }

  /** `s.slice(start, end)` */
  function JsSlice(s: string, start: int, end: int): string {
    var a := JsIndex(start, |s|);
    var b := JsIndex(end, |s|);
    if a < b then s[a..b] else ""
  }

  /** `s.slice(start)` */
  function JsSliceFrom(s: string, start: int): string {
    JsSlice(s, start, |s|)
  }

  /** shortenPubkey(pubkey, startChars, endChars): keys that fit are returned as they are; longer
      ones keep their first `startChars` and last `endChars` characters around "...". */
  function ShortenPubkey(pubkey: string, startChars: int, endChars: int): (r: string)
    ensures |pubkey| <= startChars + endChars ==> r == pubkey
    ensures |pubkey| > startChars + endChars && 0 <= startChars && 0 < endChars ==>
      && |r| == startChars + endChars + 3
      && r == pubkey[..startChars] + "..." + pubkey[|pubkey| - endChars..]
    ensures |pubkey| > startChars && 0 <= startChars && endChars == 0 ==>
      r == pubkey[..startChars] + "..." + pubkey
  {
    if |pubkey| <= startChars + endChars then pubkey
    else JsSlice(pubkey, 0, startChars) + "..." + JsSliceFrom(pubkey, -endChars)
  }

  /** The default widths used by every caller. */
  const DEFAULT_START_CHARS: int := 6
  const DEFAULT_END_CHARS: int := 4

  /** With the default widths: keys of up to ten characters stay as they are, longer ones
      become 13 characters that begin with the key's first six and end with its last four. */
  lemma ShortenPubkeyDefaults(pubkey: string)
    ensures var r := ShortenPubkey(pubkey, DEFAULT_START_CHARS, DEFAULT_END_CHARS);
      && (|pubkey| <= 10 ==> r == pubkey)
      && (|pubkey| > 10 ==> |r| == 13 && r[..6] == pubkey[..6] && r[6..9] == "..." && r[9..] == pubkey[|pubkey| - 4..])
  {
  }

  /** The predicate of findPNode's `find`. */
  predicate HasPubkey(p: Pod, key: string) {
    p.pubkey == Some(key)
  }

  /** `pods.find(pod => pod.pubkey === key)`: the first pod with that key, or none. */
  method FindPod(pods: seq<Pod>, key: string) returns (r: Option<Pod>)
    ensures r.None? <==> forall i :: 0 <= i < |pods| ==> !HasPubkey(pods[i], key)
    ensures r.Some? ==> exists i :: 0 <= i < |pods| && pods[i] == r.value && HasPubkey(pods[i], key)
                                    && forall j :: 0 <= j < i ==> !HasPubkey(pods[j], key)
  {
    var i := 0;
    while i < |pods|
      invariant 0 <= i <= |pods|
      invariant forall j :: 0 <= j < i ==> !HasPubkey(pods[j], key)
    {
      if pods[i].pubkey == Some(key) {
        return Some(pods[i]);
      }
      i := i + 1;
    }
    return None;
  }

  /** The service's formatUptime, a textual copy of the one in utils.ts: it agrees with it on every input. */
  function FormatUptime(seconds: int): (s: string)
    ensures s == Utils.FormatUptime(seconds)
  {
    var days := seconds / 86400;
    var hours := Utils.JsRem(seconds, 86400) / 3600;
    var minutes := Utils.JsRem(seconds, 3600) / 60;
    if days > 0 then IntToString(days) + "d " + IntToString(hours) + "h"
    else if hours > 0 then IntToString(hours) + "h " + IntToString(minutes) + "m"
    else IntToString(minutes) + "m"
  }

  /** The service's formatBytes: "0 Bytes" for zero, like the one in utils.ts. */
  function FormatBytes(bytes: real): (r: Option<string>)
    ensures r == Utils.FormatBytes(bytes)
    ensures bytes == 0.0 ==> r == Some("0 Bytes")
  {
    if bytes == 0.0 then Some("0 Bytes") else None
  }
}
