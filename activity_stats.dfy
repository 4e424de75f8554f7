/** Synthetic activity statistics for a user (activity_stats.py). The three
    `np.random.uniform` draws are passed in as unit draws. */
module ActivityStats {
  import opened Common

  /** The per-size parameters: volume multiplier, qscore range and
      referral range. */
  datatype SizeProfile = SizeProfile(volumeMultiplier: real, qscoreLo: real, qscoreHi: real,
                                     referralLo: real, referralHi: real)

  function ProfileOf(size: string): (p: SizeProfile)
    ensures p.qscoreLo <= p.qscoreHi && p.referralLo <= p.referralHi
    ensures 0.0 < p.volumeMultiplier
  {
    if size == "small" then SizeProfile(50.0, 50.0, 150.0, 0.0, 50.0)
    else if size == "medium" then SizeProfile(150.0, 100.0, 200.0, 0.0, 100.0)
    else if size == "large" then SizeProfile(300.0, 150.0, 300.0, 0.0, 150.0)
    else SizeProfile(100.0, 100.0, 200.0, 0.0, 100.0)
  }

  /** `generate_stats`: `size` is the user's `user_size`, or `None` for a
      user without one (a sybil). `makerDraw`, `qscoreDraw` and
      `referralDraw` are the three uniform draws in the order the source
      makes them. */
  function GenerateStats(size: Option<string>, endowment: real,
                         makerDraw: real, qscoreDraw: real, referralDraw: real): (stats: map<string, real>)
    requires IsUnit(makerDraw) && IsUnit(qscoreDraw) && IsUnit(referralDraw)
    ensures size.None? ==> stats.Keys == {"trading_volume"}
    ensures size.Some? ==> stats.Keys == {"trading_volume", "maker_volume", "taker_volume", "qscore", "referral_points"}
    ensures size.Some? ==> stats["maker_volume"] + stats["taker_volume"] == stats["trading_volume"]
  {
    match size
    case None => map["trading_volume" := endowment * 100.0]
    case Some(s) =>
      var p := ProfileOf(s);
      var trading := endowment * p.volumeMultiplier;
      var maker := trading * Uniform(0.3, 0.7, makerDraw);
      map["trading_volume" := trading,
          "maker_volume" := maker,
          "taker_volume" := trading - maker,
          "qscore" := Uniform(p.qscoreLo, p.qscoreHi, qscoreDraw),
          "referral_points" := Uniform(p.referralLo, p.referralHi, referralDraw)]
  }

  /** The trading volume is the endowment times 50, 150 or 300 for small,
      medium and large users, 100 for any other size, and 100 for a user
      without a size. */
  lemma TradingVolumeBySize(size: Option<string>, endowment: real, u1: real, u2: real, u3: real)
    requires IsUnit(u1) && IsUnit(u2) && IsUnit(u3)
    ensures var stats := GenerateStats(size, endowment, u1, u2, u3);
      stats["trading_volume"] == endowment * (
        if size == Some("small") then 50.0
        else if size == Some("medium") then 150.0
        else if size == Some("large") then 300.0
        else 100.0)
  {
  }

  /** Maker volume is 30% to 70% of the trading volume, taker volume the
      rest; with a non-negative endowment all three volumes are
      non-negative. */
  lemma MakerTakerSplit(size: string, endowment: real, u1: real, u2: real, u3: real)
    requires IsUnit(u1) && IsUnit(u2) && IsUnit(u3)
    requires 0.0 <= endowment
    ensures var stats := GenerateStats(Some(size), endowment, u1, u2, u3);
      var t := stats["trading_volume"];
      0.0 <= t
      && 0.3 * t <= stats["maker_volume"] <= 0.7 * t
      && 0.3 * t <= stats["taker_volume"] <= 0.7 * t
      && 0.0 <= stats["maker_volume"] && 0.0 <= stats["taker_volume"]
  {
    var p := ProfileOf(size);
    var t := endowment * p.volumeMultiplier;
    var f := Uniform(0.3, 0.7, u1);
    MulLeft(endowment, 0.0, p.volumeMultiplier);
    assert 0.0 <= t;
    assert 0.3 <= f <= 0.7;
    MulLeft(t, 0.3, f);
    MulLeft(t, f, 0.7);
    var stats := GenerateStats(Some(size), endowment, u1, u2, u3);
    assert stats["trading_volume"] == t && stats["maker_volume"] == t * f;
    assert stats["taker_volume"] == t - t * f;
    assert 0.3 * t <= t * f <= 0.7 * t;
    assert 0.3 * t <= t - t * f <= 0.7 * t;
  }

  /** The quality score and referral points lie in the size's ranges, e.g.
      [50, 150) and [0, 50) for a small user. */
  lemma ScoreRanges(size: string, endowment: real, u1: real, u2: real, u3: real)
    requires IsUnit(u1) && IsUnit(u2) && IsUnit(u3)
    ensures var stats := GenerateStats(Some(size), endowment, u1, u2, u3);
      var p := ProfileOf(size);
      p.qscoreLo <= stats["qscore"] < p.qscoreHi
      && p.referralLo <= stats["referral_points"] < p.referralHi
    ensures size == "small" ==> ProfileOf(size) == SizeProfile(50.0, 50.0, 150.0, 0.0, 50.0)
  {
  }
}
