/** Rows of the relational store shared by the campaign runner, the
    tracking API and the analytics queries, plus the small wrappers every
    module uses. Timestamps are integer milliseconds since the epoch. */
module Schema {

  datatype Option<T> = None | Some(value: T)

  /** JavaScript truthiness of an optional string: undefined, null and the
      empty string are falsy. */
  predicate Truthy(s: Option<string>) {
    s.Some? && s.value != ""
  }

  /** Why an operation threw. */
  datatype Failure =
    | StoreError       // a query or insert against a store was rejected
    | GatewayError     // the push gateway threw for a whole batch
    | MalformedReply   // the gateway answered with more outcomes than messages
    | DivisionByZero   // the database rejected a division by zero

  /** The result of an operation that may throw. */
  datatype Outcome<T> = Ok(value: T) | Fail(failure: Failure)

  type CampaignId = string

  /** One day and one week in milliseconds. */
  const DayMs: int := 1000 * 60 * 60 * 24
  const WeekMs: int := 7 * DayMs

  /** Lifecycle of a row of notification_campaigns. */
  datatype Status = Running | Completed

  /** A row of notification_campaigns; the totals and the completion time
      are NULL until the campaign is finalized. */
  datatype CampaignRow = CampaignRow(
    campaignType: string,
    createdAt: int,
    thresholdDays: int,
    status: Status,
    totalSent: Option<int>,
    totalFailed: Option<int>,
    completedAt: Option<int>)

  /** A row of notification_logs: one individually accepted push message. */
  datatype DeliveryRow = DeliveryRow(
    campaignId: CampaignId,
    userId: int,
    lockId: int,
    fcmId: string,
    sentAt: int,
    status: string)

  /** A row of notification_clicks. */
  datatype ClickRow = ClickRow(
    campaignId: CampaignId,
    userId: int,
    ipAddress: Option<string>,
    userAgent: Option<string>,
    clickedAt: int)

  /** A row of battery_check_actions. */
  datatype ActionRow = ActionRow(
    campaignId: CampaignId,
    userId: int,
    lockId: int,
    daysAfterNotification: int,
    checkedAt: int)

  /** A row of the campaign_effectiveness view; the view's definition is
      not part of this model, so its columns are inputs. */
  datatype EffectivenessRow = EffectivenessRow(
    campaignId: CampaignId,
    campaignType: string,
    createdAt: int,
    thresholdDays: int,
    totalSent: int,
    totalFailed: int,
    totalClicks: int,
    uniqueClickers: int,
    totalBatteryChecks: int,
    uniqueBatteryCheckers: int,
    clickThroughRate: real,
    conversionRate: real)
}
