/** The payment method dialog (src/renderer/components/PaymentMethodDialog.tsx):
    its validation schema, its defaults, the Add Reward / Remove operations,
    the rounding of points, and the normalisation of the rewards on submit.
    Select fields are classified into datatypes; an `Unlisted…` value stands
    for any text outside the schema's enumeration. */
module PaymentMethodForm {
  import opened Wrappers
  import opened JsNumber
  import Lists

  datatype MethodType = CreditCard | CryptoWallet | UnlistedMethodType
  datatype RewardType = Points | Cashback | CreditReward | UnlistedRewardType
  datatype RewardFrequency = MonthlyReward | AnnualReward | SemiannualReward | UnlistedRewardFrequency

  datatype Reward = Reward(
    id: Option<int>,
    paymentMethodId: int,
    kind: RewardType,
    amount: real,
    categoryId: int,
    frequency: Option<RewardFrequency>)

  /** The values the dialog submits. */
  datatype PaymentMethodFormData = PaymentMethodFormData(
    kind: MethodType,
    name: string,
    statementDate: Option<int>,
    paymentAccount: Option<string>,
    annualFee: Option<real>,
    tickerSymbol: Option<string>,
    walletAddress: Option<string>,
    rewards: Option<seq<Reward>>)

  /** The schema of one reward: a listed type and, when present, a listed
      frequency; the numbers are unconstrained. */
  predicate ValidReward(reward: Reward) {
    && reward.kind != UnlistedRewardType
    && (reward.frequency.None? || reward.frequency.value != UnlistedRewardFrequency)
  }

  /** `formSchema`: credit or crypto, a name, a statement date that is null
      or a day 1 to 31, an annual fee that is null or non-negative, and
      valid rewards. */
  predicate ValidPaymentMethodForm(data: PaymentMethodFormData) {
    && data.kind != UnlistedMethodType
    && |data.name| >= 1
    && (data.statementDate.None? || 1 <= data.statementDate.value <= 31)
    && (data.annualFee.None? || data.annualFee.value >= 0.0)
    && (data.rewards.None? || forall i | 0 <= i < |data.rewards.value| :: ValidReward(data.rewards.value[i]))
  }

  /** `defaultValues` for a new method. */
  const DefaultPaymentMethodForm: PaymentMethodFormData :=
    PaymentMethodFormData(CreditCard, "", Some(1), Some(""), Some(0.0), Some(""), Some(""), Some([]))

  /** The defaults fail only for the missing name. */
  lemma DefaultNeedsOnlyAName(name: string)
    ensures !ValidPaymentMethodForm(DefaultPaymentMethodForm)
    ensures ValidPaymentMethodForm(DefaultPaymentMethodForm.(name := name)) <==> |name| >= 1
  {
  }

  /** `paymentMethod?.id ?? 0`: the edited method's id, or 0 for a new one. */
  function MethodIdOf(editing: Option<nat>): nat {
    editing.GetOr(0)
  }

  /** The reward Add Reward appends. */
  function BlankReward(editing: Option<nat>): (r: Reward)
    ensures ValidReward(r) && r.kind == Points && r.amount == 0.0
  {
    Reward(None, MethodIdOf(editing), Points, 0.0, 2, None)
  }

  /** Add Reward: appends one blank reward to the current list (an absent
      list counts as empty). */
  function AddReward(data: PaymentMethodFormData, editing: Option<nat>): (r: PaymentMethodFormData)
    ensures r.rewards.Some?
    ensures |r.rewards.value| == |data.rewards.GetOr([])| + 1
    ensures r.rewards.value[..|data.rewards.GetOr([])|] == data.rewards.GetOr([])
    ensures r.rewards.value[|data.rewards.GetOr([])|] == BlankReward(editing)
    ensures r == data.(rewards := r.rewards)
  {
    data.(rewards := Some(data.rewards.GetOr([]) + [BlankReward(editing)]))
  }

  /** Remove: keeps every reward whose position is not `index`. */
  function RemoveReward(data: PaymentMethodFormData, index: int): (r: PaymentMethodFormData)
    ensures r.rewards.Some?
    ensures 0 <= index < |data.rewards.GetOr([])| ==>
              r.rewards.value == data.rewards.value[..index] + data.rewards.value[index + 1..]
    ensures !(0 <= index < |data.rewards.GetOr([])|) ==> r.rewards.value == data.rewards.GetOr([])
    ensures r == data.(rewards := r.rewards)
  {
    data.(rewards := Some(Lists.RemoveIndex(data.rewards.GetOr([]), index)))
  }

  /** Adding and removing rewards never breaks the schema. */
  lemma AddRemoveKeepValid(data: PaymentMethodFormData, editing: Option<nat>, index: int)
    requires ValidPaymentMethodForm(data)
    ensures ValidPaymentMethodForm(AddReward(data, editing))
    ensures ValidPaymentMethodForm(RemoveReward(data, index))
  {
    var rewards := data.rewards.GetOr([]);
    var added := AddReward(data, editing).rewards.value;
    forall i | 0 <= i < |added|
      ensures ValidReward(added[i])
    {
      if i < |rewards| {
        assert added[i] == added[..|rewards|][i];
      }
    }
    if 0 <= index < |rewards| {
      Lists.RemoveIndexShape(rewards, index);
    }
  }

  /** Removing the reward just added gives back the list. */
  lemma RemoveUndoesAdd(data: PaymentMethodFormData, editing: Option<nat>)
    ensures RemoveReward(AddReward(data, editing), |data.rewards.GetOr([])|)
            == data.(rewards := Some(data.rewards.GetOr([])))
  {
    var rewards := data.rewards.GetOr([]);
    var added := rewards + [BlankReward(editing)];
    assert added[..|rewards|] == rewards;
    assert added[|rewards| + 1..] == [];
    assert AddReward(data, editing).rewards.value == added;
    assert Lists.RemoveIndex(added, |rewards|) == rewards;
  }

  /** The amount field's handler: a points reward stores the entry rounded
      by `Math.round`, any other reward the entry itself. */
  function EnteredAmount(kind: RewardType, entered: real): (amount: real)
    ensures kind == Points ==> amount == amount.Floor as real && entered - 0.5 < amount <= entered + 0.5
    ensures kind != Points ==> amount == entered
  {
    if kind == Points then Round(entered) else entered
  }

  /** Entering the stored amount again changes nothing, and a non-negative
      entry stays non-negative. */
  lemma EnteredAmountStable(kind: RewardType, entered: real)
    ensures EnteredAmount(kind, EnteredAmount(kind, entered)) == EnteredAmount(kind, entered)
    ensures entered >= 0.0 ==> EnteredAmount(kind, entered) >= 0.0
  {
    if kind == Points {
      var r := Round(entered);
      assert r + 0.5 == (r.Floor + 0) as real + 0.5;
      assert (r + 0.5).Floor == r.Floor;
    }
  }

  /** One reward as the submit handler sends it: owned by the method being
      saved, and with a frequency only when it is a credit. */
  function NormaliseReward(reward: Reward, editing: Option<nat>): (r: Reward)
    ensures r.paymentMethodId == MethodIdOf(editing)
    ensures r.kind == CreditReward ==> r.frequency == reward.frequency
    ensures r.kind != CreditReward ==> r.frequency.None?
    ensures r == reward.(paymentMethodId := r.paymentMethodId, frequency := r.frequency)
  {
    reward.(paymentMethodId := MethodIdOf(editing),
            frequency := if reward.kind == CreditReward then reward.frequency else None)
  }

  function NormaliseRewards(rewards: seq<Reward>, editing: Option<nat>): (r: seq<Reward>)
    ensures |r| == |rewards|
    ensures forall i | 0 <= i < |r| :: r[i] == NormaliseReward(rewards[i], editing)
  {
    seq(|rewards|, i requires 0 <= i < |rewards| => NormaliseReward(rewards[i], editing))
  }

  /** `onSubmit`'s `formattedData`: a crypto wallet is sent without
      rewards; otherwise every reward is normalised, in order; the other
      fields pass through. */
  function SubmittedData(data: PaymentMethodFormData, editing: Option<nat>): (r: PaymentMethodFormData)
    ensures data.kind == CryptoWallet ==> r.rewards == Some([])
    ensures data.kind != CryptoWallet ==> r.rewards == Some(NormaliseRewards(data.rewards.GetOr([]), editing))
    ensures r == data.(rewards := r.rewards)
  {
    data.(rewards := Some(if data.kind == CryptoWallet then [] else NormaliseRewards(data.rewards.GetOr([]), editing)))
  }

  /** Submitting is idempotent: the data it sends would be sent unchanged. */
  lemma SubmitIdempotent(data: PaymentMethodFormData, editing: Option<nat>)
    ensures SubmittedData(SubmittedData(data, editing), editing) == SubmittedData(data, editing)
  {
    var once := SubmittedData(data, editing);
    if data.kind != CryptoWallet {
      var rs := once.rewards.value;
      assert NormaliseRewards(rs, editing) == rs;
    }
  }

  /** Normalising never breaks the schema. */
  lemma SubmitKeepsValid(data: PaymentMethodFormData, editing: Option<nat>)
    requires ValidPaymentMethodForm(data)
    ensures ValidPaymentMethodForm(SubmittedData(data, editing))
  {
  }

  /** Submitting after Add Reward sends what submitting before it would,
      plus the blank reward, for a credit card. */
  lemma SubmitAfterAdd(data: PaymentMethodFormData, editing: Option<nat>)
    requires data.kind != CryptoWallet
    ensures SubmittedData(AddReward(data, editing), editing).rewards.value
            == SubmittedData(data, editing).rewards.value + [BlankReward(editing)]
  {
    var rewards := data.rewards.GetOr([]);
    var added := AddReward(data, editing).rewards.value;
    assert added[..|rewards|] == rewards;
  }

  /** Submitting after Remove sends what submitting before it would, without
      the removed reward. */
  lemma SubmitAfterRemove(data: PaymentMethodFormData, editing: Option<nat>, index: int)
    requires data.kind != CryptoWallet
    ensures SubmittedData(RemoveReward(data, index), editing).rewards.value
            == Lists.RemoveIndex(SubmittedData(data, editing).rewards.value, index)
  {
    var rewards := data.rewards.GetOr([]);
    var sent := SubmittedData(data, editing).rewards.value;
    if 0 <= index < |rewards| {
      Lists.RemoveIndexShape(rewards, index);
      Lists.RemoveIndexShape(sent, index);
    }
  }
}
