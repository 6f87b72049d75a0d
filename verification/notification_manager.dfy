/** The notification manager: routes alerts to the two group channels, caps the number of
    instant alerts per hour with a counter, and turns a scored batch into alerts. The channel
    senders are outside the model: what each send call returns is given as a parameter, and
    every call that is made is appended to a delivery log. */
module Notifications {
  import opened Values
  import opened Seqs

  datatype Channel = PushPlus | DingTalk

  /** What a send call carries; `atAll` and `toGroup` are the DingTalk mention and the PushPlus
      group flag, `false` where the sender has no such argument. */
  datatype Message =
    | CriticalAlert(lead: Dict, atAll: bool)
    | HighPriorityBatch(leads: seq<Dict>, atAll: bool)
    | DailySummary(summary: Dict)
    | ErrorAlert(error: string, source: string, toGroup: bool)

  datatype Delivery = Delivery(channel: Channel, message: Message)

  /** The `{'pushplus': ..., 'dingtalk': ...}` result of a notification. */
  datatype ChannelResults = ChannelResults(pushplus: bool, dingtalk: bool)

  const NothingSent := ChannelResults(false, false)

  /** The statistics `process_scored_leads` returns. */
  datatype LeadStats = LeadStats(criticalNotified: nat, highNotified: nat, total: nat)

  function HasPriority(p: string): Dict -> bool {
    l => Get(l, "priority", Null) == Str(p)
  }

  class NotificationManager {
    /** `MAX_INSTANT_ALERTS_PER_HOUR` */
    const maxInstantPerHour: int
    /** `ENABLE_INSTANT_ALERTS` */
    const instantAlertsEnabled: bool
    /** A PushPlus notifier exists and is enabled. */
    const pushplusOn: bool
    /** A DingTalk notifier exists and is enabled. */
    const dingtalkOn: bool

    var instantAlertsCount: int
    /** Every send call made so far, in order. */
    var sent: seq<Delivery>

    constructor(maxInstantPerHour: int, instantAlertsEnabled: bool, pushplusOn: bool, dingtalkOn: bool)
      ensures this.maxInstantPerHour == maxInstantPerHour && this.instantAlertsEnabled == instantAlertsEnabled
      ensures this.pushplusOn == pushplusOn && this.dingtalkOn == dingtalkOn
      ensures instantAlertsCount == 0 && sent == []
    {
      this.maxInstantPerHour := maxInstantPerHour;
      this.instantAlertsEnabled := instantAlertsEnabled;
      this.pushplusOn := pushplusOn;
      this.dingtalkOn := dingtalkOn;
      instantAlertsCount := 0;
      sent := [];
    }

    /** The result of a notification made on the enabled channels, given what each send returns. */
    function Results(pushplusOk: bool, dingtalkOk: bool): (r: ChannelResults)
      ensures r.pushplus ==> pushplusOn
      ensures r.dingtalk ==> dingtalkOn
    {
      ChannelResults(pushplusOn && pushplusOk, dingtalkOn && dingtalkOk)
    }

    /** At least one channel reports success. */
    predicate Delivered(r: ChannelResults) {
      (pushplusOn && r.pushplus) || (dingtalkOn && r.dingtalk)
    }

    function DeliveredUnder(): ChannelResults -> bool {
      r => Delivered(r)
    }

    /** The send calls of one critical alert: PushPlus plainly, DingTalk mentioning everyone. */
    function CriticalSends(lead: Dict): seq<Delivery> {
      (if pushplusOn then [Delivery(PushPlus, CriticalAlert(lead, false))] else [])
        + (if dingtalkOn then [Delivery(DingTalk, CriticalAlert(lead, true))] else [])
    }

    /** The send calls of one high-priority batch, mentioning no one. */
    function BatchSends(leads: seq<Dict>): seq<Delivery> {
      (if pushplusOn then [Delivery(PushPlus, HighPriorityBatch(leads, false))] else [])
        + (if dingtalkOn then [Delivery(DingTalk, HighPriorityBatch(leads, false))] else [])
    }

    /** The send calls of critical alerts for `leads`, one after the other. */
    function CriticalLog(leads: seq<Dict>): seq<Delivery> {
      if leads == [] then [] else CriticalLog(leads[..|leads| - 1]) + CriticalSends(leads[|leads| - 1])
    }

    /** `notify_critical_lead(lead)`: refused while instant alerts are off or the hourly quota is
        used up; otherwise sent on every enabled channel and counted once, whatever the sends return. */
    method NotifyCriticalLead(lead: Dict, pushplusOk: bool, dingtalkOk: bool) returns (r: ChannelResults)
      modifies this
      ensures !instantAlertsEnabled || old(instantAlertsCount) >= maxInstantPerHour ==>
        r == NothingSent && instantAlertsCount == old(instantAlertsCount) && sent == old(sent)
      ensures instantAlertsEnabled && old(instantAlertsCount) < maxInstantPerHour ==>
        && r == Results(pushplusOk, dingtalkOk)
        && instantAlertsCount == old(instantAlertsCount) + 1
        && sent == old(sent) + CriticalSends(lead)
      ensures old(instantAlertsCount) <= maxInstantPerHour ==> instantAlertsCount <= maxInstantPerHour
    {
      if !instantAlertsEnabled {
        return NothingSent;
      }
      if instantAlertsCount >= maxInstantPerHour {
        return NothingSent;
      }
      r := NothingSent;
      if pushplusOn {
        r := r.(pushplus := pushplusOk);
        sent := sent + [Delivery(PushPlus, CriticalAlert(lead, false))];
      }
      if dingtalkOn {
        r := r.(dingtalk := dingtalkOk);
        sent := sent + [Delivery(DingTalk, CriticalAlert(lead, true))];
      }
      instantAlertsCount := instantAlertsCount + 1;
    }

    /** `notify_high_priority_batch(leads)`: nothing is sent for an empty batch or with instant
        alerts off; the quota is neither checked nor counted. */
    method NotifyHighPriorityBatch(leads: seq<Dict>, pushplusOk: bool, dingtalkOk: bool) returns (r: ChannelResults)
      modifies this
      ensures instantAlertsCount == old(instantAlertsCount)
      ensures !instantAlertsEnabled || leads == [] ==> r == NothingSent && sent == old(sent)
      ensures instantAlertsEnabled && leads != [] ==>
        r == Results(pushplusOk, dingtalkOk) && sent == old(sent) + BatchSends(leads)
    {
      if !instantAlertsEnabled || |leads| == 0 {
        return NothingSent;
      }
      r := NothingSent;
      if pushplusOn {
        r := r.(pushplus := pushplusOk);
        sent := sent + [Delivery(PushPlus, HighPriorityBatch(leads, false))];
      }
      if dingtalkOn {
        r := r.(dingtalk := dingtalkOk);
        sent := sent + [Delivery(DingTalk, HighPriorityBatch(leads, false))];
      }
    }

    /** `send_daily_summary(summary)`: on every enabled channel, with no quota. */
    method SendDailySummary(summary: Dict, pushplusOk: bool, dingtalkOk: bool) returns (r: ChannelResults)
      modifies this
      ensures r == Results(pushplusOk, dingtalkOk)
      ensures instantAlertsCount == old(instantAlertsCount)
      ensures sent == old(sent)
        + (if pushplusOn then [Delivery(PushPlus, DailySummary(summary))] else [])
        + (if dingtalkOn then [Delivery(DingTalk, DailySummary(summary))] else [])
    {
      r := NothingSent;
      if pushplusOn {
        r := r.(pushplus := pushplusOk);
        sent := sent + [Delivery(PushPlus, DailySummary(summary))];
      }
      if dingtalkOn {
        r := r.(dingtalk := dingtalkOk);
        sent := sent + [Delivery(DingTalk, DailySummary(summary))];
      }
    }

    /** `send_error_alert(error, source)`: to the PushPlus owner only, never to a group and never
        through DingTalk. */
    method SendErrorAlert(error: string, source: string, pushplusOk: bool) returns (r: ChannelResults)
      modifies this
      ensures !r.dingtalk && r.pushplus == (pushplusOn && pushplusOk)
      ensures instantAlertsCount == old(instantAlertsCount)
      ensures sent == old(sent) + (if pushplusOn then [Delivery(PushPlus, ErrorAlert(error, source, false))] else [])
    {
      r := NothingSent;
      if pushplusOn {
        r := r.(pushplus := pushplusOk);
        sent := sent + [Delivery(PushPlus, ErrorAlert(error, source, false))];
      }
    }

    /** How many of `n` critical alerts, asked for one after the other starting from counter
        `count`, get past the switch and the quota. */
    function Admitted(count: int, n: nat): (k: nat)
      ensures k <= n
    {
      if !instantAlertsEnabled || count >= maxInstantPerHour then 0
      else if n <= maxInstantPerHour - count then n
      else maxInstantPerHour - count
    }

    /** One more critical alert is admitted exactly when the counter is still below the quota. */
    lemma AdmittedStep(count: int, n: nat)
      ensures var k := Admitted(count, n);
        Admitted(count, n + 1) == if instantAlertsEnabled && count + k < maxInstantPerHour then k + 1 else k
      ensures instantAlertsEnabled && count + Admitted(count, n) < maxInstantPerHour ==> Admitted(count, n) == n
    {
    }

    lemma CriticalStep(critical: seq<Dict>, sends: seq<ChannelResults>, k: nat)
      requires k < |critical| == |sends|
      ensures CriticalLog(critical[..k + 1]) == CriticalLog(critical[..k]) + CriticalSends(critical[k])
      ensures Count(sends[..k + 1], DeliveredUnder()) == Count(sends[..k], DeliveredUnder()) + (if Delivered(sends[k]) then 1 else 0)
    {
      assert critical[..k + 1][..k] == critical[..k];
      assert sends[..k + 1] == sends[..k] + [sends[k]];
      FilterSnoc(sends[..k], sends[k], DeliveredUnder());
    }

    /** The loop over the critical leads: alert each one and count those that reached a channel. */
    method NotifyCriticalLeads(critical: seq<Dict>, sends: seq<ChannelResults>) returns (notified: nat)
      requires |sends| == |critical|
      modifies this
      ensures var k := Admitted(old(instantAlertsCount), |critical|);
        && notified == Count(sends[..k], DeliveredUnder())
        && instantAlertsCount == old(instantAlertsCount) + k
        && sent == old(sent) + CriticalLog(critical[..k])
    {
      ghost var count0 := instantAlertsCount;
      ghost var sent0 := sent;
      notified := 0;
      var i := 0;
      while i < |critical|
        invariant i <= |critical|
        invariant var k := Admitted(count0, i);
          && notified == Count(sends[..k], DeliveredUnder())
          && instantAlertsCount == count0 + k
          && sent == sent0 + CriticalLog(critical[..k])
      {
        AdmittedStep(count0, i);
        CriticalStep(critical, sends, i);
        var result := NotifyCriticalLead(critical[i], sends[i].pushplus, sends[i].dingtalk);
        if result.pushplus || result.dingtalk {
          notified := notified + 1;
        }
        i := i + 1;
      }
    }

    /** `process_scored_leads(leads)`: alert each Critical lead in turn, then the High leads as
        one batch; `sends` are the send results of the Critical alerts in order, `batch` those of
        the batch. */
    method ProcessScoredLeads(leads: seq<Dict>, sends: seq<ChannelResults>, batch: ChannelResults) returns (stats: LeadStats)
      requires |sends| == |Filter(leads, HasPriority("Critical"))|
      modifies this
      ensures var critical, high := Filter(leads, HasPriority("Critical")), Filter(leads, HasPriority("High"));
        var k := Admitted(old(instantAlertsCount), |critical|);
        && stats.total == |leads|
        && stats.criticalNotified == Count(sends[..k], DeliveredUnder())
        && stats.criticalNotified <= |critical|
        && stats.highNotified == (if instantAlertsEnabled && high != [] && Delivered(batch) then |high| else 0)
        && instantAlertsCount == old(instantAlertsCount) + k
        && sent == old(sent) + CriticalLog(critical[..k]) + (if instantAlertsEnabled && high != [] then BatchSends(high) else [])
    {
      var critical := Filter(leads, HasPriority("Critical"));
      var high := Filter(leads, HasPriority("High"));
      var criticalNotified := NotifyCriticalLeads(critical, sends);
      stats := LeadStats(criticalNotified, 0, |leads|);
      if |high| > 0 {
        var result := NotifyHighPriorityBatch(high, batch.pushplus, batch.dingtalk);
        if result.pushplus || result.dingtalk {
          stats := stats.(highNotified := |high|);
        }
      }
    }

    /** `reset_hourly_counter()` */
    method ResetHourlyCounter()
      modifies this
      ensures instantAlertsCount == 0 && sent == old(sent)
    {
      instantAlertsCount := 0;
    }

    /** However many critical alerts are asked for, a counter at or below the quota stays at or below it. */
    lemma QuotaKept(count: int, n: nat)
      requires count <= maxInstantPerHour
      ensures count + Admitted(count, n) <= maxInstantPerHour
    {
    }
  }
}
