/** The errors the domain and application layers raise, one constructor per raise site kind. */
module Errors {

  datatype Error =
    | NegativeAmount          // Money: amount below zero
    | InvalidCurrency         // Money: currency code not exactly three characters
    | IncompatibleCurrency    // Money addition across two currencies
    | InvalidInterval         // BillingCycle: interval not positive
    | InvalidUnit             // BillingCycle: unit not one of days, weeks, months, years
    | PauseCancelled          // pause of a cancelled subscription
    | AlreadyPaused           // pause of a paused subscription
    | NotPaused               // resume of a subscription that is not paused
    | AlreadyCancelled        // cancel of a cancelled subscription
    | CurrencyChange          // update_cost to another currency
    | RenewalInactive         // process_renewal on a subscription that is not active
    | DuplicateRule           // a notification rule for that timing already exists
    | SubscriptionNotFound    // use case: no subscription with that id
    | ProviderNotFound        // use case: no provider with that id
}
