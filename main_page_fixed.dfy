/**
 * The corrected static page's script. Its form validation is the same as
 * the first page script's (`MainPage.ValidateForm`). What it adds is state:
 * a flag that makes the contact form's set-up run once, a menu whose CSS
 * class follows its flag, a single notification at a time, and the typing
 * effect of the hero text.
 */
module MainPageFixed {
  import opened Wrappers
  import opened JsText
  import opened ClientForm

  /** The page's `AppState` and the parts of the page it drives. */
  class AppState {
    var isMenuOpen: bool
    /** Whether the navigation carries `nav-open`. */
    var navOpen: bool
    /** Whether the menu button carries `active`. */
    var toggleActive: bool
    var formInitialized: bool
    /** Whether the form's submit handler is attached (it is attached at most once). */
    var submitHandlerAttached: bool
    /** The `.notification` elements on the page, in document order. */
    var notifications: seq<Notice>

    /** The menu's classes follow its flag, the handler is attached exactly once set-up ran, and at most one notification shows. */
    predicate Valid()
      reads this
    {
      && navOpen == isMenuOpen && toggleActive == isMenuOpen
      && submitHandlerAttached == formInitialized
      && |notifications| <= 1
    }

    constructor ()
      ensures Valid() && !isMenuOpen && !formInitialized && notifications == []
    {
      isMenuOpen, navOpen, toggleActive := false, false, false;
      formInitialized, submitHandlerAttached := false, false;
      notifications := [];
    }

    /**
     * `initContactForm`: a second call does nothing; without the form
     * nothing happens and the flag stays down, so a later call may still
     * set the form up.
     */
    method InitContactForm(formExists: bool)
      modifies this
      requires Valid()
      ensures Valid()
      ensures old(formInitialized) ==> formInitialized && submitHandlerAttached
      ensures formInitialized == (old(formInitialized) || formExists)
      ensures isMenuOpen == old(isMenuOpen) && notifications == old(notifications)
    {
      if formInitialized {
        return;
      }
      if !formExists {
        return;
      }
      submitHandlerAttached := true;
      formInitialized := true;
    }

    /** The menu button: the flag flips and both classes follow it. */
    method MenuToggleClicked()
      modifies this
      requires Valid()
      ensures Valid() && isMenuOpen == !old(isMenuOpen)
      ensures formInitialized == old(formInitialized) && notifications == old(notifications)
      ensures submitHandlerAttached == old(submitHandlerAttached)
    {
      isMenuOpen := !isMenuOpen;
      navOpen := isMenuOpen;
      toggleActive := isMenuOpen;
    }

    /** A navigation link closes the menu. */
    method NavLinkClicked()
      modifies this
      requires Valid()
      ensures Valid() && !isMenuOpen && !navOpen
      ensures formInitialized == old(formInitialized) && notifications == old(notifications)
      ensures submitHandlerAttached == old(submitHandlerAttached)
    {
      isMenuOpen := false;
      navOpen := false;
      toggleActive := false;
    }

    /**
     * `showNotification`: the first notification on the page is removed,
     * then the new one added; so the new one is the only one.
     */
    method ShowNotification(message: string, kind: string)
      modifies this
      requires Valid()
      ensures Valid() && notifications == [Notice(message, kind)]
      ensures isMenuOpen == old(isMenuOpen) && formInitialized == old(formInitialized)
    {
      if notifications != [] {
        notifications := notifications[1..];
      }
      notifications := notifications + [Notice(message, kind)];
    }

    /** The close button, or the timer, removes the notification. */
    method CloseNotification()
      modifies this
      requires Valid()
      ensures Valid() && notifications == []
      ensures isMenuOpen == old(isMenuOpen) && formInitialized == old(formInitialized)
    {
      notifications := [];
    }
  }

  /**
   * The hero's typing effect: the texts of the `data-typing` attribute, the
   * one being typed, how much of it is shown, and whether it is being
   * typed or deleted. One call of `Step` is one run of `type()`.
   */
  class TypingEffect {
    const texts: seq<string>
    var currentIndex: nat
    var currentText: string
    var isDeleting: bool
    /** The delay before the next step, in milliseconds. */
    var typeSpeed: nat

    /** The index names a text, and what is shown is a beginning of it. */
    predicate Valid()
      reads this
    {
      currentIndex < |texts| && currentText <= texts[currentIndex]
    }

    /** `initTypingEffect`: the attribute split at `|`, nothing shown yet. */
    constructor (attribute: string)
      ensures Valid()
      ensures Join(texts, '|') == attribute
      ensures currentIndex == 0 && currentText == "" && !isDeleting && typeSpeed == 100
    {
      texts := Split(attribute, '|');
      currentIndex, currentText, isDeleting, typeSpeed := 0, "", false, 100;
      JoinSplit(attribute, '|');
    }

    /**
     * `type()`: one character more or one fewer of the current text. A
     * fully typed text starts being deleted; a fully deleted one gives way
     * to the next text, cyclically.
     */
    method Step()
      modifies this
      requires Valid()
      ensures Valid()
      ensures var full := texts[old(currentIndex)];
        currentText == if old(isDeleting) then Prefix(full, |old(currentText)| - 1) else Prefix(full, |old(currentText)| + 1)
      ensures !old(isDeleting) && currentText == texts[old(currentIndex)] ==>
        isDeleting && currentIndex == old(currentIndex) && typeSpeed == 2000
      ensures old(isDeleting) && currentText == "" ==>
        !isDeleting && currentIndex == (old(currentIndex) + 1) % |texts| && typeSpeed == 500
      ensures !old(isDeleting) && currentText != texts[old(currentIndex)] ==>
        !isDeleting && currentIndex == old(currentIndex) && typeSpeed == 100
      ensures old(isDeleting) && currentText != "" ==>
        isDeleting && currentIndex == old(currentIndex) && typeSpeed == 50
    {
      var fullText := texts[currentIndex];
      if isDeleting {
        currentText := Prefix(fullText, |currentText| - 1);
        typeSpeed := 50;
      } else {
        currentText := Prefix(fullText, |currentText| + 1);
        typeSpeed := 100;
      }
      if !isDeleting && currentText == fullText {
        typeSpeed := 2000;
        isDeleting := true;
      } else if isDeleting && currentText == "" {
        isDeleting := false;
        currentIndex := (currentIndex + 1) % |texts|;
        typeSpeed := 500;
      }
    }
  }
}
