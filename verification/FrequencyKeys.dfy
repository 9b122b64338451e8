/** The Redis keys of the frequency counters. */
module FrequencyKeys {
  import opened Common
  import opened Decimal

  datatype CapWindow = Hour | Day | Week

  function Suffix(w: CapWindow): string {
    match w
    case Hour => "h"
    case Day => "d"
    case Week => "w"
  }

  /** `fc_key`, read by the capper. */
  function FcKey(user: string, dim: string, dimVal: nat, w: CapWindow): string {
    "v1:fc:{u:" + user + "}:" + dim + ":" + Digits(dimVal) + ":" + Suffix(w)
  }

  /** The key format of `write_impression_counters`. */
  function WriterKey(user: string, campaign: nat, suffix: string): string {
    "v1:fc:{u:" + user + "}:c:" + Digits(campaign) + ":" + suffix
  }

  /** The key format: user, campaign, and one letter for the window. */
  lemma FcKeyIs(user: string, c: nat)
    ensures FcKey(user, "c", c, Hour) == "v1:fc:{u:" + user + "}:" + "c" + ":" + Digits(c) + ":" + "h"
    ensures FcKey(user, "c", c, Day) == "v1:fc:{u:" + user + "}:" + "c" + ":" + Digits(c) + ":" + "d"
    ensures FcKey(user, "c", c, Week) == "v1:fc:{u:" + user + "}:" + "c" + ":" + Digits(c) + ":" + "w"
  {
  }

  /** The workers write the keys the capper reads. */
  lemma WriterKeyIsFcKey(user: string, campaign: nat, w: CapWindow)
    ensures WriterKey(user, campaign, Suffix(w)) == FcKey(user, "c", campaign, w)
  {
    var p, d := "v1:fc:{u:" + user, Digits(campaign) + ":" + Suffix(w);
    assert p + "}:" + "c" + ":" + d == p + "}:c:" + d;
    assert FcKey(user, "c", campaign, w) == p + "}:" + "c" + ":" + d;
    assert WriterKey(user, campaign, Suffix(w)) == p + "}:c:" + d;
  }

  /** Distinct users, campaigns or windows never share a counter, whatever
      characters a user id contains. */
  lemma FcKeyInjective(u: string, c: nat, w: CapWindow, u': string, c': nat, w': CapWindow)
    requires FcKey(u, "c", c, w) == FcKey(u', "c", c', w')
    ensures u == u' && c == c' && w == w'
  {
    var head, head' := "v1:fc:{u:" + u + "}:" + "c", "v1:fc:{u:" + u' + "}:" + "c";
    assert FcKey(u, "c", c, w) == (head + ":" + Digits(c)) + ":" + Suffix(w);
    assert FcKey(u', "c", c', w') == (head' + ":" + Digits(c')) + ":" + Suffix(w');
    SplitAtLast(head + ":" + Digits(c), Suffix(w), head' + ":" + Digits(c'), Suffix(w'), ':');
    ParseDigits(c);
    ParseDigits(c');
    SplitAtLast(head, Digits(c), head', Digits(c'), ':');
    assert head[9..|head| - 3] == u && head'[9..|head'| - 3] == u';
  }
}
