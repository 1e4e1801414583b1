/**
 * The app's Hindi/English strings (app/lib/i18n.tsx): the translation table, the `t` lookup
 * that falls back to the key, and the language state of `LanguageProvider`, which starts in
 * Hindi, may be replaced once by a stored preference, and is changed by `setLang`.
 */
module I18n {
  import opened Wrappers

  datatype Lang = En | Hi

  /** The code a language is stored under and compared with: `'en'` or `'hi'`. */
  function Code(lang: Lang): string {
    match lang
    case En => "en"
    case Hi => "hi"
  }

  /** One row of the table; both languages are present by construction. */
  datatype Entry = Entry(en: string, hi: string)
  {
    function In(lang: Lang): string {
      match lang
      case En => en
      case Hi => hi
    }
  }

  /** The home screen strings. */
  const HomeScreen: map<string, Entry> := map[
    "greeting" := Entry("Hello! 🙏", "नमस्ते! 🙏"),
    "shop_name" := Entry("Sharma Kirana Store", "शर्मा किराना स्टोर"),
    "today_sales" := Entry("Today's Sales", "आज की बिक्री"),
    "pending_orders" := Entry("Pending Orders", "लंबित ऑर्डर"),
    "low_stock" := Entry("Low Stock", "कम स्टॉक"),
    "customers" := Entry("Customers", "ग्राहक"),
    "recent_orders" := Entry("📋 Recent Orders", "📋 हाल के ऑर्डर"),
    "no_orders" := Entry("No orders yet", "अभी कोई ऑर्डर नहीं"),
    "quick_actions" := Entry("⚡ Quick Actions", "⚡ त्वरित कार्य"),
    "quick_sale" := Entry("Quick Sale", "त्वरित बिक्री"),
    "quick_udhaar" := Entry("Quick Udhaar", "त्वरित उधार"),
    "quick_sale_title" := Entry("💰 Quick Sale", "💰 त्वरित बिक्री"),
    "quick_udhaar_title" := Entry("📝 Quick Udhaar", "📝 त्वरित उधार"),
    "amount" := Entry("Amount (₹) *", "राशि (₹) *"),
    "enter_amount" := Entry("Enter amount", "राशि दर्ज करें"),
    "customer_name" := Entry("Customer Name", "ग्राहक का नाम"),
    "optional" := Entry("(Optional)", "(वैकल्पिक)"),
    "enter_customer_name" := Entry("Enter customer name", "ग्राहक का नाम दर्ज करें"),
    "item_optional" := Entry("Item (Optional)", "वस्तु (वैकल्पिक)"),
    "item_placeholder" := Entry("E.g., Rice 5kg, Milk", "जैसे, चावल 5kg, दूध"),
    "saving" := Entry("Saving...", "सहेज रहे हैं..."),
    "record_sale" := Entry("Record Sale", "बिक्री दर्ज करें"),
    "record_udhaar" := Entry("Record Udhaar", "उधार दर्ज करें")
  ]

  /** The tab bar strings. */
  const TabBar: map<string, Entry> := map[
    "tab_home" := Entry("Home", "होम"),
    "tab_orders" := Entry("Orders", "ऑर्डर"),
    "tab_stock" := Entry("Stock", "स्टॉक"),
    "tab_reports" := Entry("Reports", "रिपोर्ट"),
    "tab_profile" := Entry("Profile", "प्रोफ़ाइल")
  ]

  /** The reports screen strings. */
  const ReportsScreen: map<string, Entry> := map[
    "today" := Entry("Today", "आज"),
    "this_week" := Entry("This Week", "इस सप्ताह"),
    "this_month" := Entry("This Month", "इस महीने"),
    "total_revenue" := Entry("Total Revenue", "कुल आय"),
    "payment_breakdown" := Entry("💳 Payment Breakdown", "💳 भुगतान विवरण"),
    "cash" := Entry("Cash", "नकद"),
    "upi" := Entry("UPI", "यूपीआई"),
    "credit_given" := Entry("Credit Given", "उधार दिया"),
    "pending_udhaar" := Entry("⏳ Pending Udhaar", "⏳ लंबित उधार"),
    "no_pending_debts" := Entry("No pending debts! 🎉", "कोई लंबित उधार नहीं! 🎉"),
    "remind" := Entry("Remind", "याद दिलाएं"),
    "total_pending" := Entry("Total Pending", "कुल लंबित"),
    "download_reports" := Entry("📥 Download Reports", "📥 रिपोर्ट डाउनलोड करें"),
    "sales_report_pdf" := Entry("Sales Report PDF", "बिक्री रिपोर्ट PDF"),
    "export_excel" := Entry("Export to Excel", "एक्सेल में निर्यात"),
    "sales_breakdown" := Entry("📊 Sales Breakdown", "📊 बिक्री विवरण"),
    "quick_sales" := Entry("Quick Sales", "त्वरित बिक्री"),
    "telegram_sales" := Entry("Telegram Sales", "टेलीग्राम बिक्री"),
    "udhaar_given" := Entry("Udhaar Given", "उधार दिया"),
    "order_sales" := Entry("Order Sales", "ऑर्डर बिक्री"),
    "orders_word" := Entry("orders", "ऑर्डर"),
    "avg" := Entry("Avg", "औसत")
  ]

  /** The notifications screen strings. */
  const NotificationsScreen: map<string, Entry> := map[
    "notifications" := Entry("🔔 Notifications", "🔔 सूचनाएं"),
    "mark_all_read" := Entry("Mark all read", "सभी पढ़ा गया"),
    "no_notifications" := Entry("No notifications yet", "अभी कोई सूचना नहीं"),
    "just_now" := Entry("Just now", "अभी"),
    "ago" := Entry("ago", "पहले")
  ]

  /** The profile screen strings. */
  const ProfileScreen: map<string, Entry> := map[
    "language" := Entry("Language", "भाषा"),
    "switch_to_hindi" := Entry("हिंदी", "हिंदी"),
    "switch_to_english" := Entry("English", "English"),
    "current_language" := Entry("English", "हिंदी")
  ]

  /** The orders strings. */
  const Headers: map<string, Entry> := map[
    "orders_header" := Entry("📋 Orders", "📋 ऑर्डर"),
    "inventory_header" := Entry("📦 Inventory", "📦 इन्वेंट्री"),
    "reports_header" := Entry("📊 Reports", "📊 रिपोर्ट"),
    "profile_header" := Entry("👤 Profile", "👤 प्रोफ़ाइल"),
    "home_header" := Entry("🏪 Bharat Biz-Agent", "🏪 भारत बिज़-एजेंट")
  ]

  /** The alerts and errors strings. */
  const AlertsAndErrors: map<string, Entry> := map[
    "error" := Entry("Error", "त्रुटि"),
    "success" := Entry("Success", "सफल"),
    "valid_amount_error" := Entry("Please enter a valid amount", "कृपया सही राशि दर्ज करें"),
    "customer_required" := Entry("Customer name is required for Udhaar", "उधार के लिए ग्राहक का नाम आवश्यक है"),
    "sale_recorded" := Entry("sale recorded!", "बिक्री दर्ज!"),
    "udhaar_recorded" := Entry("udhaar recorded for", "उधार दर्ज"),
    "failed_record" := Entry("Failed to record transaction", "लेनदेन रिकॉर्ड करने में विफल"),
    "done" := Entry("Done", "हो गया"),
    "all_marked_read" := Entry("All notifications marked as read", "सभी सूचनाएं पढ़ी गई")
  ]

  /** The `translations` record: its sections in source order (a later key would win, as in a JS object literal). */
  const Translations: map<string, Entry> :=
    HomeScreen + TabBar + ReportsScreen + NotificationsScreen + ProfileScreen + Headers + AlertsAndErrors

  /**
   * `table[key]?.[lang] || key`: the entry's text in `lang` when the key is in the table and
   * that text is not empty, the key itself otherwise.
   */
  function Lookup(table: map<string, Entry>, lang: Lang, key: string): (r: string)
    ensures key in table && table[key].In(lang) != "" ==> r == table[key].In(lang)
    ensures key in table && table[key].In(lang) == "" ==> r == key
    ensures key !in table ==> r == key
  {
    if key in table && table[key].In(lang) != "" then table[key].In(lang) else key
  }

  /** What `useLanguage()` hands a screen: the current language and the table `t` reads. */
  datatype Context = Context(lang: Lang, table: map<string, Entry>)
  {
    /** `t(key)`. */
    function T(key: string): string {
      Lookup(table, lang, key)
    }
  }

  /** The context outside any provider: English, and `t` returns the key (an empty table). */
  const DefaultContext := Context(En, map[])

  /** Outside a provider every key reads as itself. */
  lemma DefaultContextIsIdentity(key: string)
    ensures DefaultContext.T(key) == key && DefaultContext.lang == En
  {
  }

  /** `saved === 'en' || saved === 'hi'`: the stored value as a language, if it is one. */
  function ParseLang(saved: Option<string>): (r: Option<Lang>)
    ensures r.Some? <==> saved == Some("en") || saved == Some("hi")
    ensures r.Some? ==> saved == Some(Code(r.value))
  {
    if saved == Some("en") then Some(En)
    else if saved == Some("hi") then Some(Hi)
    else None
  }

  /** A language written by `setLang` is read back as the same language. */
  lemma ParseLangCode(lang: Lang)
    ensures ParseLang(Some(Code(lang))) == Some(lang)
  {
    match lang
    case En =>
    case Hi =>
  }

  /**
   * `LanguageProvider`: the `lang` state and the `@app_language` item it is saved under
   * (`None` while nothing has been saved).
   */
  class LanguageProvider {
    var lang: Lang
    var saved: Option<string>

    /** The provider starts in Hindi; storage holds whatever an earlier session saved. */
    constructor (saved: Option<string>)
      ensures lang == Hi && this.saved == saved
    {
      lang := Hi;
      this.saved := saved;
    }

    /** The mount effect: a saved `'en'` or `'hi'` replaces the language, anything else is ignored. */
    method LoadSaved()
      modifies this
      ensures ParseLang(saved).Some? ==> lang == ParseLang(saved).value
      ensures ParseLang(saved).None? ==> lang == old(lang)
      ensures saved == old(saved)
    {
      var parsed := ParseLang(saved);
      if parsed.Some? {
        lang := parsed.value;
      }
    }

    /** `setLang`: switch the language and save its code. */
    method SetLang(newLang: Lang)
      modifies this
      ensures lang == newLang && saved == Some(Code(newLang))
    {
      lang := newLang;
      saved := Some(Code(newLang));
    }

    /** The value the provider passes down. */
    function Current(): Context
      reads this
    {
      Context(lang, Translations)
    }
  }
}
