/**
  The interface translations of src/utils/language.ts: two flat tables, a
  lookup `t` that follows a dotted key and falls back to the key itself, and
  the current-language state kept in a module variable and in local storage.
 */
module Language {
  import opened Wrappers
  import opened Strings

  /** A value in the translation object: a string, or a nested object of values. */
  datatype Entry = Text(text: string) | Table(entries: map<string, Entry>)

  /** The languages `setLanguage` accepts. */
  type Lang = l: string | l == "en" || l == "gu" witness "en"

  /** The local-storage key both `setLanguage` and `getLanguage` use. */
  const StorageKey := "language"

  /** The `en` table (src/utils/language.ts:4-73). */
  const EnStrings: map<string, string> := map[
    "welcome" := "Welcome",
    "login" := "Login",
    "signup" := "Sign Up",
    "logout" := "Logout",
    "submit" := "Submit",
    "cancel" := "Cancel",
    "save" := "Save",
    "delete" := "Delete",
    "edit" := "Edit",
    "confirm" := "Confirm",
    "back" := "Back",
    "continue" := "Continue",
    "close" := "Close",
    "email" := "Email",
    "password" := "Password",
    "confirmPassword" := "Confirm Password",
    "forgotPassword" := "Forgot Password?",
    "dontHaveAccount" := "Don't have an account?",
    "alreadyHaveAccount" := "Already have an account?",
    "loginAsAdmin" := "Login as Admin",
    "farmer" := "Farmer",
    "company" := "Company",
    "buyer" := "Buyer",
    "appName" := "Saurashtra Setu",
    "tagline" := "Connecting Farmers & Buyers",
    "farmerDashboard" := "Farmer Dashboard",
    "createListing" := "Create New Listing",
    "myListings" := "My Listings",
    "uploadPhoto" := "Upload Groundnut Photo",
    "aiAnalysis" := "AI Quality Analysis",
    "viewOffers" := "View Offers",
    "companyDashboard" := "Buyer Dashboard",
    "browseListings" := "Browse Listings",
    "makeOffer" := "Make an Offer",
    "quality" := "Quality",
    "grade" := "Grade",
    "moisture" := "Moisture",
    "quantity" := "Quantity",
    "price" := "Price",
    "available" := "Available",
    "sold" := "Sold",
    "adminPanel" := "Admin Panel",
    "manageUsers" := "Manage Users",
    "manageBids" := "Manage Bids",
    "manageDeals" := "Manage Deals",
    "otpSent" := "OTP sent successfully",
    "otpVerified" := "OTP verified successfully",
    "registrationSuccess" := "Registration successful",
    "loginSuccess" := "Login successful",
    "offerSubmitted" := "Offer submitted successfully",
    "dealAccepted" := "Deal accepted successfully"
  ]

  /** The `gu` table (src/utils/language.ts:74-143). */
  const GuStrings: map<string, string> := map[
    "welcome" := "સ્વાગત છે",
    "login" := "લૉગિન",
    "signup" := "સાઇન અપ",
    "logout" := "લૉગઆઉટ",
    "submit" := "સબમિટ",
    "cancel" := "રદ કરો",
    "save" := "સેવ કરો",
    "delete" := "ડિલીટ કરો",
    "edit" := "એડિટ કરો",
    "confirm" := "પુષ્ટિ કરો",
    "back" := "પાછળ",
    "continue" := "આગળ વધો",
    "close" := "બંધ કરો",
    "email" := "ઇમેઇલ",
    "password" := "પાસવર્ડ",
    "confirmPassword" := "પાસવર્ડની પુષ્ટિ કરો",
    "forgotPassword" := "પાસવર્ડ ભૂલી ગયા?",
    "dontHaveAccount" := "એકાઉન્ટ નથી?",
    "alreadyHaveAccount" := "પહેલેથી એકાઉન્ટ છે?",
    "loginAsAdmin" := "એડમિન તરીકે લોગિન કરો",
    "farmer" := "ખેડૂત",
    "company" := "કંપની",
    "buyer" := "ખરીદનાર",
    "appName" := "સૌરાષ્ટ્ર સેતુ",
    "tagline" := "ખેડૂતો અને ખરીદદારોને જોડવું",
    "farmerDashboard" := "ખેડૂત ડેશબોર્ડ",
    "createListing" := "નવી લિસ્ટિંગ બનાવો",
    "myListings" := "મારી લિસ્ટિંગ્સ",
    "uploadPhoto" := "મગફળીનો ફોટો અપલોડ કરો",
    "aiAnalysis" := "AI ગુણવત્તા વિશ્લેષણ",
    "viewOffers" := "ઓફર્સ જુઓ",
    "companyDashboard" := "ખરીદનાર ડેશબોર્ડ",
    "browseListings" := "લિસ્ટિંગ્સ બ્રાઉઝ કરો",
    "makeOffer" := "ઓફર આપો",
    "quality" := "ગુણવત્તા",
    "grade" := "ગ્રેડ",
    "moisture" := "ભેજ",
    "quantity" := "જથ્થો",
    "price" := "કિંમત",
    "available" := "ઉપલબ્ધ",
    "sold" := "વેચાઈ ગયું",
    "adminPanel" := "એડમિન પેનલ",
    "manageUsers" := "વપરાશકર્તાઓ સંચાલિત કરો",
    "manageBids" := "બિડ્સ સંચાલિત કરો",
    "manageDeals" := "સોદા સંચાલિત કરો",
    "otpSent" := "OTP સફળતાપૂર્વક મોકલ્યો",
    "otpVerified" := "OTP સફળતાપૂર્વક ચકાસાયો",
    "registrationSuccess" := "નોંધણી સફળ",
    "loginSuccess" := "લોગિન સફળ",
    "offerSubmitted" := "ઓફર સફળતાપૂર્વક સબમિટ થયું",
    "dealAccepted" := "સોદો સ્વીકારવામાં આવ્યો"
  ]

  /** A flat table of strings as a translation object. */
  function FlatTable(strings: map<string, string>): Entry {
    Table(map k | k in strings :: Text(strings[k]))
  }

  /** The whole `translations` object. */
  const Translations: Entry := Table(map["en" := FlatTable(EnStrings), "gu" := FlatTable(GuStrings)])

  /** `value?.[k]`: a missing key or a lookup into anything but an object is `undefined`. */
  function Step(v: Option<Entry>, k: string): Option<Entry> {
    match v
    case Some(Table(m)) => if k in m then Some(m[k]) else None
    case _ => None
  }

  /** The loop at :161-164: one step per key segment, in order. */
  function Follow(v: Option<Entry>, keys: seq<string>): (r: Option<Entry>)
    ensures v.None? ==> r.None?
    decreases |keys|
  {
    if keys == [] then v else Follow(Step(v, keys[0]), keys[1..])
  }

  /** Following two paths one after the other is following their concatenation. */
  lemma {:induction false} FollowAppend(v: Option<Entry>, a: seq<string>, b: seq<string>)
    ensures Follow(v, a + b) == Follow(Follow(v, a), b)
    decreases |a|
  {
    if a == [] {
      assert a + b == b;
    } else {
      assert (a + b)[0] == a[0] && (a + b)[1..] == a[1..] + b;
      FollowAppend(Step(v, a[0]), a[1..], b);
    }
  }

  /** `t(key)` against the table for `lang`: a non-empty string found by the path, else the key itself. */
  function Translate(lang: string, key: string): (r: string)
    ensures r == key || (exists s :: Follow(Step(Some(Translations), lang), Split(key, '.')) == Some(Text(s)) && s != "" && r == s)
  {
    match Follow(Step(Some(Translations), lang), Split(key, '.'))
    case Some(Text(s)) => if s != "" then s else key
    case _ => key
  }

  /** A key without a dot is looked up directly in the language's table. */
  lemma FlatKeyTranslates(lang: Lang, key: string)
    requires '.' !in key
    ensures var table := if lang == "en" then EnStrings else GuStrings;
            Translate(lang, key) == if key in table && table[key] != "" then table[key] else key
  {
    SplitWithoutSeparator(key, '.');
    var table := if lang == "en" then EnStrings else GuStrings;
    var entry := Step(Some(Translations), lang);
    assert entry == Some(FlatTable(table));
    assert Follow(entry, [key]) == Follow(Step(entry, key), []);
    FlatTableStep(table, key);
  }

  /** One step into a flat table finds the key's string, or nothing. */
  lemma FlatTableStep(strings: map<string, string>, key: string)
    ensures Step(Some(FlatTable(strings)), key) == if key in strings then Some(Text(strings[key])) else None
  {
  }

  /**
    The tables hold only strings, so in the model a dotted key never resolves and comes back as
    it was. JavaScript would go on indexing into the string (`welcome.0` gives its first
    character); that case is not modelled.
   */
  lemma DottedKeyFallsBack(lang: string, key: string)
    ensures '.' in key ==> Translate(lang, key) == key
  {
    if '.' !in key {
      return;
    }
    SplitAtSeparator(key, '.');
    var keys := Split(key, '.');
    var first := Step(Step(Some(Translations), lang), keys[0]);
    assert first.None? || first.value.Text?;
    assert Follow(Step(Some(Translations), lang), keys) == Follow(first, keys[1..]);
    assert keys[1..][0] == keys[1] && keys[1..][1..] == keys[2..];
    assert Follow(first, keys[1..]) == Follow(Step(first, keys[1]), keys[2..]);
    assert Step(first, keys[1]).None?;
  }

  /** A language without a table (whatever else local storage holds) translates every key to itself. */
  lemma UnknownLanguageFallsBack(lang: string, key: string)
    requires lang != "en" && lang != "gu"
    ensures Translate(lang, key) == key
  {
  }

  // ---------------------------------------------------------------- state

  /** The module variable `currentLanguage` and the browser's local storage. */
  class LanguageState {
    var currentLanguage: string
    var storage: map<string, string>

    constructor (storage: map<string, string>)
      ensures this.currentLanguage == "en" && this.storage == storage
    {
      this.currentLanguage := "en";
      this.storage := storage;
    }

    /** `getLanguage` (:153-156): the saved language, or `en` when nothing (or an empty string) is saved. */
    function GetLanguage(): (r: string)
      reads this
      ensures StorageKey !in storage || storage[StorageKey] == "" ==> r == "en"
      ensures StorageKey in storage && storage[StorageKey] != "" ==> r == storage[StorageKey]
      ensures r != ""
    {
      if StorageKey in storage && storage[StorageKey] != "" then storage[StorageKey] else "en"
    }

    /** `setLanguage` (:148-151). */
    method SetLanguage(lang: Lang)
      modifies this
      ensures currentLanguage == lang
      ensures storage == old(storage)[StorageKey := lang]
      ensures GetLanguage() == lang
    {
      currentLanguage := lang;
      storage := storage[StorageKey := lang];
    }

    /** `initLanguage` (:169-174): adopts a saved language, leaving storage alone. */
    method InitLanguage()
      modifies this
      ensures storage == old(storage)
      ensures StorageKey in storage && storage[StorageKey] != "" ==> currentLanguage == storage[StorageKey]
      ensures !(StorageKey in storage && storage[StorageKey] != "") ==> currentLanguage == old(currentLanguage)
      ensures StorageKey in storage && storage[StorageKey] != "" ==> currentLanguage == GetLanguage()
    {
      if StorageKey in storage && storage[StorageKey] != "" {
        currentLanguage := storage[StorageKey];
      }
    }

    /** `t` (:158-167): it reads the language from storage, not from `currentLanguage`. */
    function T(key: string): (r: string)
      reads this
      ensures GetLanguage() != "en" && GetLanguage() != "gu" ==> r == key
      ensures '.' in key ==> r == key
      ensures '.' !in key && (GetLanguage() == "en" || GetLanguage() == "gu") ==>
                var table := if GetLanguage() == "en" then EnStrings else GuStrings;
                r == if key in table && table[key] != "" then table[key] else key
    {
      DottedKeyFallsBack(GetLanguage(), key);
      var lang := GetLanguage();
      assert '.' !in key && (lang == "en" || lang == "gu") ==>
               var table := if lang == "en" then EnStrings else GuStrings;
               Translate(lang, key) == if key in table && table[key] != "" then table[key] else key
      by {
        if '.' !in key && (lang == "en" || lang == "gu") {
          FlatKeyTranslates(lang, key);
        }
      }
      Translate(lang, key)
    }
  }

  /** After `setLanguage(l)`, `t` looks every key without a dot up in `l`'s table. */
  lemma SetLanguageThenTranslate(st: LanguageState, before: map<string, string>, lang: Lang, key: string)
    requires st.storage == before[StorageKey := lang]
    ensures st.GetLanguage() == lang
    ensures '.' !in key ==>
              var table := if lang == "en" then EnStrings else GuStrings;
              st.T(key) == if key in table && table[key] != "" then table[key] else key
  {
    if '.' !in key {
      FlatKeyTranslates(lang, key);
    }
  }
}
