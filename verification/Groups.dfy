/** Groups: the columns of their table, its rows, and the loaded objects. */
module Groups {

  /** The columns of the groups table, and any other expression a query may select. */
  datatype GroupColumn =
    | GroupId | CreatedAt | UpdatedAt | DeletedAt | Name | Description | RateMultiplier | IsExclusive
    | Status | Platform | SubscriptionType | DailyLimitUsd | WeeklyLimitUsd | MonthlyLimitUsd
    | DefaultValidityDays | AllowImageGeneration | ImageRateIndependent | ImageRateMultiplier
    | ImagePrice1k | ImagePrice2k | ImagePrice4k | ClaudeCodeOnly | FallbackGroupId
    | FallbackGroupIdOnInvalidRequest | ModelRouting | ModelRoutingEnabled | McpXmlInject
    | SupportedModelScopes | SortOrder | AllowMessagesDispatch | RequireOauthOnly | RequirePrivacySet
    | DefaultMappedModel | MessagesDispatchModelConfig | RpmLimit | Other(name: string)

  /** All columns of the table, in its order. */
  function GroupColumns(): seq<GroupColumn> {[
    GroupId, CreatedAt, UpdatedAt, DeletedAt, Name, Description, RateMultiplier, IsExclusive, Status,
    Platform, SubscriptionType, DailyLimitUsd, WeeklyLimitUsd, MonthlyLimitUsd, DefaultValidityDays,
    AllowImageGeneration, ImageRateIndependent, ImageRateMultiplier, ImagePrice1k, ImagePrice2k, ImagePrice4k,
    ClaudeCodeOnly, FallbackGroupId, FallbackGroupIdOnInvalidRequest, ModelRouting, ModelRoutingEnabled,
    McpXmlInject, SupportedModelScopes, SortOrder, AllowMessagesDispatch, RequireOauthOnly, RequirePrivacySet,
    DefaultMappedModel, MessagesDispatchModelConfig, RpmLimit]
  }

  function Position(c: GroupColumn): (i: nat)
    requires !c.Other?
    ensures i < |GroupColumns()| && GroupColumns()[i] == c
  {
    match c
    case GroupId => 0
    case CreatedAt => 1
    case UpdatedAt => 2
    case DeletedAt => 3
    case Name => 4
    case Description => 5
    case RateMultiplier => 6
    case IsExclusive => 7
    case Status => 8
    case Platform => 9
    case SubscriptionType => 10
    case DailyLimitUsd => 11
    case WeeklyLimitUsd => 12
    case MonthlyLimitUsd => 13
    case DefaultValidityDays => 14
    case AllowImageGeneration => 15
    case ImageRateIndependent => 16
    case ImageRateMultiplier => 17
    case ImagePrice1k => 18
    case ImagePrice2k => 19
    case ImagePrice4k => 20
    case ClaudeCodeOnly => 21
    case FallbackGroupId => 22
    case FallbackGroupIdOnInvalidRequest => 23
    case ModelRouting => 24
    case ModelRoutingEnabled => 25
    case McpXmlInject => 26
    case SupportedModelScopes => 27
    case SortOrder => 28
    case AllowMessagesDispatch => 29
    case RequireOauthOnly => 30
    case RequirePrivacySet => 31
    case DefaultMappedModel => 32
    case MessagesDispatchModelConfig => 33
    case RpmLimit => 34
  }

  /** The table has every column; only a selected expression is not one of them. */
  lemma ColumnsAreFields(c: GroupColumn)
    ensures c in GroupColumns() <==> !c.Other?
  {
    if !c.Other? {
      assert GroupColumns()[Position(c)] == c;
    }
  }

  /** A row of the groups table, or what a selection read of it: the key, and the other columns
      that are not NULL. */
  datatype GroupRow = GroupRow(id: int, rest: map<GroupColumn, string>)

  class Group {
    const row: GroupRow

    constructor (row: GroupRow)
      ensures this.row == row
    {
      this.row := row;
    }
  }
}
