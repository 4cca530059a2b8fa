/** The fixed translation table that the Dadaal translator builds when it is
    created (translations.py:7-200): language code to key to display string. */
module TranslationTable {

  type Tables = map<string, map<string, string>>

  /** Builds the table from the four per-language maps. */
  function TableOf(so: map<string, string>, en: map<string, string>,
                   ar: map<string, string>, fr: map<string, string>): (t: Tables)
    ensures t.Keys == {"so", "en", "ar", "fr"}
    ensures t["so"] == so && t["en"] == en && t["ar"] == ar && t["fr"] == fr
  {
    map["so" := so, "en" := en, "ar" := ar, "fr" := fr]
  }

  /** The table held by every translator (translations.py:7-200). */
  const SourceTable: Tables := TableOf(Somali, English, Arabic, French)

  /** The Somali table (translations.py:8-55), one display per
      section of the site, joined in source order (`+` lets a later key win,
      as a repeated key in a Python dict literal does). */
  const Somali: map<string, string> :=
    SomaliNavigation + SomaliAccount + SomaliInfo + SomaliLanding

  const SomaliNavigation: map<string, string> := map[
    "app_name" := "Dadaal App",
    "welcome" := "Ku soo dhawow",
    "home" := "Hore",
    "login" := "Gal",
    "register" := "Diiwaan geli",
    "dashboard" := "Dashboard",
    "payment" := "Lacag shubo",
    "gifts" := "Hadiyado",
    "ads" := "Xayeysiisyo",
    "referral" := "Invite Friends",
    "premium" := "Premium",
    "affiliate" := "Affiliate",
    "earnings" := "Dakhli",
    "profile" := "Profile",
    "logout" := "Ka bax"
  ]

  const SomaliAccount: map<string, string> := map[
    "email" := "Email",
    "password" := "Password",
    "name" := "Magaca",
    "phone" := "Telefoon",
    "confirm_password" := "Xaqiiji password-ka",
    "forgot_password" := "Password ma xusuusanaysid?",
    "reset_password" := "Bedel password-ka",
    "verify_email" := "Xaqiiji email-ka"
  ]

  const SomaliInfo: map<string, string> := map[
    "contact" := "La xiriir",
    "about" := "Naga",
    "terms" := "Shuruudaha",
    "privacy" := "Sirta"
  ]

  const SomaliLanding: map<string, string> := map[
    "hero_title" := "💰 Ku Bilaw Lacag Samynta Maanta!",
    "hero_subtitle" := "Nidaamka ugu fiican ee lacag samynta online-ka ah",
    "total_earnings" := "Lacagta la helay",
    "users" := "Users",
    "support" := "Support",
    "featured_services" := "🚀 Adeegyada Ugu Waaweyn",
    "referral_program" := "Referral Program",
    "referral_desc" := "Hel $5 qof walba oo aad soo dirtid",
    "premium_account" := "Premium Account",
    "premium_desc" := "5x lacag badan oo bonuses ah",
    "affiliate_marketing" := "Affiliate Marketing",
    "affiliate_desc" := "20% commission dhammaan sales-ka",
    "start_now" := "Bilaw hadda",
    "upgrade" := "Upgrade",
    "join_now" := "Join Now",
    "quick_actions" := "⚡ Quick Actions",
    "latest_updates" := "📢 Warar Cusub",
    "copyright" := "© 2025 Dadaal App. Dhamaan xuquuqda way dhowran yihiin.",
    "made_with_love" := "Made with ❤️ for Somali Entrepreneurs"
  ]

  /** The English table (translations.py:56-103), one display per
      section of the site, joined in source order (`+` lets a later key win,
      as a repeated key in a Python dict literal does). */
  const English: map<string, string> :=
    EnglishNavigation + EnglishAccount + EnglishInfo + EnglishLanding

  const EnglishNavigation: map<string, string> := map[
    "app_name" := "Dadaal App",
    "welcome" := "Welcome",
    "home" := "Home",
    "login" := "Login",
    "register" := "Register",
    "dashboard" := "Dashboard",
    "payment" := "Payment",
    "gifts" := "Gifts",
    "ads" := "Ads",
    "referral" := "Referral",
    "premium" := "Premium",
    "affiliate" := "Affiliate",
    "earnings" := "Earnings",
    "profile" := "Profile",
    "logout" := "Logout"
  ]

  const EnglishAccount: map<string, string> := map[
    "email" := "Email",
    "password" := "Password",
    "name" := "Name",
    "phone" := "Phone",
    "confirm_password" := "Confirm Password",
    "forgot_password" := "Forgot Password?",
    "reset_password" := "Reset Password",
    "verify_email" := "Verify Email"
  ]

  const EnglishInfo: map<string, string> := map[
    "contact" := "Contact",
    "about" := "About",
    "terms" := "Terms",
    "privacy" := "Privacy"
  ]

  const EnglishLanding: map<string, string> := map[
    "hero_title" := "💰 Start Earning Money Today!",
    "hero_subtitle" := "The best online money-making platform",
    "total_earnings" := "Total Earnings",
    "users" := "Users",
    "support" := "Support",
    "featured_services" := "🚀 Featured Services",
    "referral_program" := "Referral Program",
    "referral_desc" := "Get $5 for every person you refer",
    "premium_account" := "Premium Account",
    "premium_desc" := "5x more money and bonuses",
    "affiliate_marketing" := "Affiliate Marketing",
    "affiliate_desc" := "20% commission on all sales",
    "start_now" := "Start Now",
    "upgrade" := "Upgrade",
    "join_now" := "Join Now",
    "quick_actions" := "⚡ Quick Actions",
    "latest_updates" := "📢 Latest Updates",
    "copyright" := "© 2025 Dadaal App. All rights reserved.",
    "made_with_love" := "Made with ❤️ for Entrepreneurs"
  ]

  /** The Arabic table (translations.py:104-151), one display per
      section of the site, joined in source order (`+` lets a later key win,
      as a repeated key in a Python dict literal does). */
  const Arabic: map<string, string> :=
    ArabicNavigation + ArabicAccount + ArabicInfo + ArabicLanding

  const ArabicNavigation: map<string, string> := map[
    "app_name" := "تطبيق دادال",
    "welcome" := "مرحبا",
    "home" := "الرئيسية",
    "login" := "تسجيل الدخول",
    "register" := "التسجيل",
    "dashboard" := "لوحة التحكم",
    "payment" := "الدفع",
    "gifts" := "الهدايا",
    "ads" := "الإعلانات",
    "referral" := "الإحالة",
    "premium" := "المميز",
    "affiliate" := "التسويق بالعمولة",
    "earnings" := "الأرباح",
    "profile" := "الملف الشخصي",
    "logout" := "تسجيل الخروج"
  ]

  const ArabicAccount: map<string, string> := map[
    "email" := "البريد الإلكتروني",
    "password" := "كلمة المرور",
    "name" := "الاسم",
    "phone" := "الهاتف",
    "confirm_password" := "تأكيد كلمة المرور",
    "forgot_password" := "نسيت كلمة المرور؟",
    "reset_password" := "إعادة تعيين كلمة المرور",
    "verify_email" := "تأكيد البريد الإلكتروني"
  ]

  const ArabicInfo: map<string, string> := map[
    "contact" := "اتصل بنا",
    "about" := "عنا",
    "terms" := "الشروط",
    "privacy" := "الخصوصية"
  ]

  const ArabicLanding: map<string, string> := map[
    "hero_title" := "💰 ابدأ في كسب المال اليوم!",
    "hero_subtitle" := "أفضل منصة لكسب المال عبر الإنترنت",
    "total_earnings" := "إجمالي الأرباح",
    "users" := "المستخدمون",
    "support" := "الدعم",
    "featured_services" := "🚀 الخدمات المميزة",
    "referral_program" := "برنامج الإحالة",
    "referral_desc" := "احصل على $5 لكل شخص تحيله",
    "premium_account" := "الحساب المميز",
    "premium_desc" := "5 أضعاف المال والمكافآت",
    "affiliate_marketing" := "التسويق بالعمولة",
    "affiliate_desc" := "20% عمولة على جميع المبيعات",
    "start_now" := "ابدأ الآن",
    "upgrade" := "ترقية",
    "join_now" := "انضم الآن",
    "quick_actions" := "⚡ إجراءات سريعة",
    "latest_updates" := "📢 آخر التحديثات",
    "copyright" := "© 2025 تطبيق دادال. جميع الحقوق محفوظة.",
    "made_with_love" := "صنع بـ ❤️ لرواد الأعمال"
  ]

  /** The French table (translations.py:152-199), one display per
      section of the site, joined in source order (`+` lets a later key win,
      as a repeated key in a Python dict literal does). */
  const French: map<string, string> :=
    FrenchNavigation + FrenchAccount + FrenchInfo + FrenchLanding

  const FrenchNavigation: map<string, string> := map[
    "app_name" := "Dadaal App",
    "welcome" := "Bienvenue",
    "home" := "Accueil",
    "login" := "Se connecter",
    "register" := "S'inscrire",
    "dashboard" := "Tableau de bord",
    "payment" := "Paiement",
    "gifts" := "Cadeaux",
    "ads" := "Publicités",
    "referral" := "Parrainage",
    "premium" := "Premium",
    "affiliate" := "Affiliation",
    "earnings" := "Gains",
    "profile" := "Profil",
    "logout" := "Se déconnecter"
  ]

  const FrenchAccount: map<string, string> := map[
    "email" := "Email",
    "password" := "Mot de passe",
    "name" := "Nom",
    "phone" := "Téléphone",
    "confirm_password" := "Confirmer le mot de passe",
    "forgot_password" := "Mot de passe oublié?",
    "reset_password" := "Réinitialiser le mot de passe",
    "verify_email" := "Vérifier l'email"
  ]

  const FrenchInfo: map<string, string> := map[
    "contact" := "Contact",
    "about" := "À propos",
    "terms" := "Conditions",
    "privacy" := "Confidentialité"
  ]

  const FrenchLanding: map<string, string> := map[
    "hero_title" := "💰 Commencez à gagner de l'argent aujourd'hui!",
    "hero_subtitle" := "La meilleure plateforme de gains en ligne",
    "total_earnings" := "Gains totaux",
    "users" := "Utilisateurs",
    "support" := "Support",
    "featured_services" := "🚀 Services en vedette",
    "referral_program" := "Programme de parrainage",
    "referral_desc" := "Obtenez 5$ pour chaque personne que vous parrainez",
    "premium_account" := "Compte Premium",
    "premium_desc" := "5x plus d'argent et de bonus",
    "affiliate_marketing" := "Marketing d'affiliation",
    "affiliate_desc" := "20% de commission sur toutes les ventes",
    "start_now" := "Commencer maintenant",
    "upgrade" := "Mettre à niveau",
    "join_now" := "Rejoindre maintenant",
    "quick_actions" := "⚡ Actions rapides",
    "latest_updates" := "📢 Dernières mises à jour",
    "copyright" := "© 2025 Dadaal App. Tous droits réservés.",
    "made_with_love" := "Fait avec ❤️ pour les entrepreneurs"
  ]

  /** The menu and page names section has the same keys in every language. */
  lemma NavigationKeysAgree()
    ensures EnglishNavigation.Keys == SomaliNavigation.Keys
    ensures ArabicNavigation.Keys == SomaliNavigation.Keys
    ensures FrenchNavigation.Keys == SomaliNavigation.Keys
  {
  }

  /** The account forms section has the same keys in every language. */
  lemma AccountKeysAgree()
    ensures EnglishAccount.Keys == SomaliAccount.Keys
    ensures ArabicAccount.Keys == SomaliAccount.Keys
    ensures FrenchAccount.Keys == SomaliAccount.Keys
  {
  }

  /** The footer links section has the same keys in every language. */
  lemma InfoKeysAgree()
    ensures EnglishInfo.Keys == SomaliInfo.Keys
    ensures ArabicInfo.Keys == SomaliInfo.Keys
    ensures FrenchInfo.Keys == SomaliInfo.Keys
  {
  }

  /** The landing page section has the same keys in every language. */
  lemma LandingKeysAgree()
    ensures EnglishLanding.Keys == SomaliLanding.Keys
    ensures ArabicLanding.Keys == SomaliLanding.Keys
    ensures FrenchLanding.Keys == SomaliLanding.Keys
  {
  }

  /** Joining sections with the same keys gives tables with the same keys. */
  lemma JoinedKeysAgree(a1: map<string, string>, a2: map<string, string>,
                        a3: map<string, string>, a4: map<string, string>,
                        b1: map<string, string>, b2: map<string, string>,
                        b3: map<string, string>, b4: map<string, string>)
    requires a1.Keys == b1.Keys && a2.Keys == b2.Keys && a3.Keys == b3.Keys && a4.Keys == b4.Keys
    ensures (a1 + a2 + a3 + a4).Keys == (b1 + b2 + b3 + b4).Keys
  {
  }

  /** Each language defines exactly the keys Somali defines. */
  lemma LanguagesAgree()
    ensures English.Keys == Somali.Keys
    ensures Arabic.Keys == Somali.Keys
    ensures French.Keys == Somali.Keys
  {
    NavigationKeysAgree();
    AccountKeysAgree();
    InfoKeysAgree();
    LandingKeysAgree();
    JoinedKeysAgree(EnglishNavigation, EnglishAccount, EnglishInfo, EnglishLanding,
                    SomaliNavigation, SomaliAccount, SomaliInfo, SomaliLanding);
    JoinedKeysAgree(ArabicNavigation, ArabicAccount, ArabicInfo, ArabicLanding,
                    SomaliNavigation, SomaliAccount, SomaliInfo, SomaliLanding);
    JoinedKeysAgree(FrenchNavigation, FrenchAccount, FrenchInfo, FrenchLanding,
                    SomaliNavigation, SomaliAccount, SomaliInfo, SomaliLanding);
  }

  lemma TableOfSharesKeys(so: map<string, string>, en: map<string, string>,
                          ar: map<string, string>, fr: map<string, string>)
    requires en.Keys == so.Keys && ar.Keys == so.Keys && fr.Keys == so.Keys
    ensures forall lang :: lang in TableOf(so, en, ar, fr) ==> TableOf(so, en, ar, fr)[lang].Keys == so.Keys
  {
  }

  /** The table has exactly four languages, Somali among them, and every
      language has a string for exactly the keys Somali has. */
  lemma SourceTableShape()
    ensures SourceTable.Keys == {"so", "en", "ar", "fr"}
    ensures SourceTable["so"] == Somali
    ensures forall lang :: lang in SourceTable ==> SourceTable[lang].Keys == Somali.Keys
  {
    LanguagesAgree();
    TableOfSharesKeys(Somali, English, Arabic, French);
  }

  // Single entries. A lookup through a joined table is reduced to the
  // section that holds the key, one section at a time.

  lemma SectionLookup(first: map<string, string>, second: map<string, string>,
                      third: map<string, string>, fourth: map<string, string>, key: string)
    requires key in first && key !in second && key !in third && key !in fourth
    ensures key in first + second + third + fourth
    ensures (first + second + third + fourth)[key] == first[key]
  {
  }

  lemma EnglishWelcomeSections()
    ensures "welcome" in EnglishNavigation && EnglishNavigation["welcome"] == "Welcome"
    ensures "welcome" !in EnglishAccount && "welcome" !in EnglishInfo && "welcome" !in EnglishLanding
  {
  }

  lemma SomaliWelcomeSections()
    ensures "welcome" in SomaliNavigation && SomaliNavigation["welcome"] == "Ku soo dhawow"
    ensures "welcome" !in SomaliAccount && "welcome" !in SomaliInfo && "welcome" !in SomaliLanding
  {
  }

  lemma EnglishWelcome()
    ensures "welcome" in English && English["welcome"] == "Welcome"
  {
    EnglishWelcomeSections();
    SectionLookup(EnglishNavigation, EnglishAccount, EnglishInfo, EnglishLanding, "welcome");
  }

  lemma SomaliWelcome()
    ensures "welcome" in Somali && Somali["welcome"] == "Ku soo dhawow"
  {
    SomaliWelcomeSections();
    SectionLookup(SomaliNavigation, SomaliAccount, SomaliInfo, SomaliLanding, "welcome");
  }

  lemma SectionsLack(first: map<string, string>, second: map<string, string>,
                      third: map<string, string>, fourth: map<string, string>, key: string)
    requires key !in first && key !in second && key !in third && key !in fourth
    ensures key !in first + second + third + fourth
  {
  }

  lemma SomaliLacksKeySections()
    ensures "missing" !in SomaliNavigation && "missing" !in SomaliAccount
    ensures "missing" !in SomaliInfo && "missing" !in SomaliLanding
  {
  }

  lemma SomaliLacksKey()
    ensures "missing" !in Somali
  {
    SomaliLacksKeySections();
    SectionsLack(SomaliNavigation, SomaliAccount, SomaliInfo, SomaliLanding, "missing");
  }
}
