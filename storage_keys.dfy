/** The key names under which the app keeps its state in the secure store. */
module StorageKeys {

  // Session keys
  const AUTH_TOKEN := "auth_token"
  const USER_ID := "user_id"
  const USER_NAME := "user_name"
  const USER_EMAIL := "user_email"
  const IS_LOGGED_IN := "is_logged_in"
  const LAST_LOGIN_TIMESTAMP := "last_login_timestamp"
  const LAST_LOGOUT_TIMESTAMP := "last_logout_timestamp"
  const LAST_LOGGED_IN_EMAIL := "last_logged_in_email"
  const USER_STATE := "user_state"

  // App settings
  const DARK_MODE := "dark_mode"
  const NOTIFICATIONS_ENABLED := "notifications_enabled"
  const APP_LANGUAGE := "app_language"

  // User preferences
  const SELECTED_CURRENCY := "selected_currency"
  const ADDRESS_PRIMARY := "address_primary"

  // Shopping
  const CART_ITEMS := "cart_items"
  const WISHLIST_ITEMS := "wishlist_items"
  const RECENT_SEARCHES := "recent_searches"
  const RECENT_PRODUCTS := "recent_products"

  /** The four string fields of a session, in the order `SessionManager` writes them. */
  const SessionFields: seq<string> := [AUTH_TOKEN, USER_ID, USER_NAME, USER_EMAIL]

  /** The four string keys plus the logged-in flag. */
  const SessionKeys: set<string> := {AUTH_TOKEN, USER_ID, USER_NAME, USER_EMAIL, IS_LOGGED_IN}

  /** All eighteen key constants. */
  const AllKeys: seq<string> := [
    AUTH_TOKEN, USER_ID, USER_NAME, USER_EMAIL, IS_LOGGED_IN,
    LAST_LOGIN_TIMESTAMP, LAST_LOGOUT_TIMESTAMP, LAST_LOGGED_IN_EMAIL, USER_STATE,
    DARK_MODE, NOTIFICATIONS_ENABLED, APP_LANGUAGE, SELECTED_CURRENCY, ADDRESS_PRIMARY,
    CART_ITEMS, WISHLIST_ITEMS, RECENT_SEARCHES, RECENT_PRODUCTS]

  /** The five session keys are pairwise distinct, so writing one never overwrites another. */
  lemma SessionKeysDistinct()
    ensures |SessionKeys| == 5
    ensures forall i, j :: 0 <= i < j < |SessionFields| ==> SessionFields[i] != SessionFields[j]
    ensures IS_LOGGED_IN !in SessionFields
  {
  }

  /**
   * The keys written outside `SessionManager` lie outside the session keys:
   * removing `USER_STATE` cannot disturb the token, a session logout keeps
   * the remembered email, and the two timestamps are kept apart.
   */
  lemma AuxiliaryKeysOutsideSession()
    ensures USER_STATE !in SessionKeys
    ensures LAST_LOGGED_IN_EMAIL !in SessionKeys && LAST_LOGGED_IN_EMAIL != USER_EMAIL
    ensures LAST_LOGIN_TIMESTAMP !in SessionKeys && LAST_LOGOUT_TIMESTAMP !in SessionKeys
    ensures LAST_LOGIN_TIMESTAMP != LAST_LOGOUT_TIMESTAMP
    ensures |{USER_STATE, LAST_LOGGED_IN_EMAIL, LAST_LOGIN_TIMESTAMP, LAST_LOGOUT_TIMESTAMP}| == 4
  {
  }

  /** No two of the eighteen key constants coincide. */
  lemma {:induction false} AllKeysDistinct()
    ensures forall i, j :: 0 <= i < j < |AllKeys| ==> AllKeys[i] != AllKeys[j]
  {
    forall i, j | 0 <= i < j < |AllKeys|
      ensures AllKeys[i] != AllKeys[j]
    {
      var a, b := AllKeys[i], AllKeys[j];
      if |a| == |b| {
        // keys of equal length differ at index 0, 5, 7 or 8
        assert a[0] != b[0] || a[5] != b[5] || a[7] != b[7] || a[8] != b[8];
      }
    }
  }
}
