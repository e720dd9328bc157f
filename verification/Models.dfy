/** Enumerations and small values shared by every hub of the engine. */
module Models {

  datatype Option<+T> = None | Some(value: T)

  datatype Direction = LONG | SHORT | PASS

  datatype GridMode = LONG_GRID | SHORT_GRID | NEUTRAL_GRID | NO_GRID

  datatype Side = BUY | SELL | OtherSide(text: string)

  /** +1 for LONG and -1 otherwise: the sign of a position. */
  function Sign(d: Direction): real {
    if d.LONG? then 1.0 else -1.0
  }

  function EntrySide(d: Direction): Side {
    if d.LONG? then BUY else SELL
  }

  function Abs(x: real): real {
    if x < 0.0 then -x else x
  }

  function MinReal(x: real, y: real): real {
    if y < x then y else x
  }

  function MaxReal(x: real, y: real): real {
    if y > x then y else x
  }

  /** A product; proofs that only move products about hide its meaning. */
  function Mul(x: real, y: real): real {
    x * y
  }

  lemma MulGrows(a: real, b: real, x: real)
    requires a <= b && x >= 0.0
    ensures Mul(a, x) <= Mul(b, x)
    ensures a >= 0.0 ==> Mul(a, x) >= 0.0
  {
    assert (b - a) * x >= 0.0;
  }

  lemma MulStrictlyGrows(a: real, b: real, x: real)
    requires a < b && x > 0.0
    ensures Mul(a, x) < Mul(b, x)
  {
    assert (b - a) * x > 0.0;
    assert (b - a) * x == b * x - a * x;
  }

  /** What named a signal; the digest of a campaign is taken over it. */
  datatype Setup =
    | BREAKOUT_ACCEPTANCE | FAILED_BREAKOUT_SWEEP | RANGE_NEUTRAL | WARMUP | RANGE
    | PassReason(text: string)

  /** A campaign's digest input; equal digests are equal inputs. */
  datatype CampaignId = CampaignId(symbol: string, mode: GridMode, setup: Setup, eventMs: int)

  /** The keys the engine derives client ids from. */
  datatype IdKey =
    | StarterKey(campaign: CampaignId)
    | LevelKey(campaign: CampaignId, index: int)
    | StopKey(campaign: CampaignId)
    | TakeProfitKey(campaign: CampaignId)
    | EmergencyKey(campaign: CampaignId, purpose: EmergencyPurpose)
    | OtherKey(text: string)

  datatype EmergencyPurpose =
    | EmergencyClose | NeutralOpenEmergencyClose | DirectionFlipClose | NeutralProtectionEmergencyClose

  /** A client id by what the engine can tell from its text: absent, carrying the engine's own
      prefix, one of the exchange's forced-close ids, or anything else. */
  datatype ClientId = NoId | SgId(key: IdKey) | AutoCloseId(text: string) | ForeignId(text: string)
}
