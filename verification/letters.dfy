/**
 * The letter q and the fixture texts that lack it. Each literal gets a lemma of its own:
 * a literal is unfolded character by character, and several in one proof cost far more
 * than the sum of each alone.
 */
module Letters {
  /** Neither case of the letter q occurs in the string. */
  predicate NoQ(s: string) { 'q' !in s && 'Q' !in s }

  // The shipped menu labels.
  lemma NoQInDashboard() ensures NoQ("Dashboard") { }
  lemma NoQInGlobalAnalytics() ensures NoQ("Global Analytics") { }
  lemma NoQInBeok() ensures NoQ("BEOK") { }
  lemma NoQInWords() ensures NoQ("WORD'S") { }
  lemma NoQInVoidAI() ensures NoQ("V\U{00D3}ID AI") { }
  lemma NoQInEscan() ensures NoQ("ESCAN") { }
  lemma NoQInEbok() ensures NoQ("EBOK") { }

  // The shipped product names and categories.
  lemma NoQInNebulaTShirt() ensures NoQ("Nebula T-Shirt") { }
  lemma NoQInApparel() ensures NoQ("Apparel") { }
  lemma NoQInCyberSneakers() ensures NoQ("Cyber Sneakers") { }
  lemma NoQInFootwear() ensures NoQ("Footwear") { }
  lemma NoQInUrbanExplorerJacket() ensures NoQ("Urban Explorer Jacket") { }
  lemma NoQInOuterwear() ensures NoQ("Outerwear") { }

  // The shipped post titles and authors.
  lemma NoQInTheFutureOfAIInContentCreation() ensures NoQ("The Future of AI in Content Creation") { }
  lemma NoQInJaneDoe() ensures NoQ("Jane Doe") { }
  lemma NoQInTop10ReactHooksFor2024() ensures NoQ("Top 10 React Hooks for 2024") { }
  lemma NoQInJohnSmith() ensures NoQ("John Smith") { }
  lemma NoQInUnlockingCreativityWithVoidAI() ensures NoQ("Unlocking Creativity with V\U{00D3}ID AI") { }
  lemma NoQInAIAssistant() ensures NoQ("AI Assistant") { }

  // The shipped course titles and instructors.
  lemma NoQInAdvancedMachineLearning() ensures NoQ("Advanced Machine Learning") { }
  lemma NoQInDrEvaRostova() ensures NoQ("Dr. Eva Rostova") { }
  lemma NoQInReactForBeginners() ensures NoQ("React for Beginners") { }
  lemma NoQInTomWest() ensures NoQ("Tom West") { }
  lemma NoQInUXDesignFundamentals() ensures NoQ("UX Design Fundamentals") { }
  lemma NoQInMariaGarcia() ensures NoQ("Maria Garcia") { }

  // The shipped ebook titles and authors.
  lemma NoQInTheSiliconMind() ensures NoQ("The Silicon Mind") { }
  lemma NoQInKenjiTanaka() ensures NoQ("Kenji Tanaka") { }
  lemma NoQInDigitalNomadsGuide() ensures NoQ("Digital Nomad's Guide") { }
  lemma NoQInAishaKhan() ensures NoQ("Aisha Khan") { }
  lemma NoQInCookingWithCode() ensures NoQ("Cooking with Code") { }
  lemma NoQInChefGpt() ensures NoQ("Chef GPT") { }
}
